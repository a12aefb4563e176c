/** One leader's term as a step system: the leader, its followers, and one first-in-first-out link
    each way. Followers may join, leave and join again. */
module Broadcast {
  import opened Common
  import opened BroadcastSpec
  import D = DataSetSpec

  /** `session` counts the server's connections in this term; `up` is what it has sent and the
      leader has not yet read. When the leader drops a connection, `rest` is what the server may
      still read from it; `cutLog` and `cutUncommit` are where that leads (history variables). */
  datatype Peer<S> = Peer(
    f: Follow<S>,
    joined: bool,
    session: nat,
    up: seq<Up>,
    rest: seq<Down>,
    cutLog: seq<D.Bill>,
    cutUncommit: seq<D.Bill>)

  /** Every draft ever made, in order, with the session of the request it came from (history variable). */
  datatype Origin = Origin(zxId: int, id: int, session: nat, requestId: int, data: string)

  datatype Sys<S> = Sys(lead: Lead<S>, peers: map<int, Peer<S>>, drafted: seq<Origin>)

  datatype Step =
    | Join(id: int)
    | Update(id: int)
    | Leave(id: int)
    | LeadSubmit(data: string, disk: set<int>)
    | FollowSubmits(id: int, data: string)
    | LeadReads(id: int, nextCount: nat, disk: set<int>)
    | FollowReads(id: int, nextCount: nat)
    | ReadsAstray(id: int, msg: Down, nextCount: nat)

  function LinkTo<S>(s: Sys<S>, id: int): Option<seq<Down>> {
    if 1 <= id <= |s.lead.links| then s.lead.links[id - 1] else None
  }

  predicate Connected<S>(s: Sys<S>, id: int) {
    id in s.peers && s.peers[id].joined
  }

  /** What a server has still to read. */
  function Queue<S>(p: Peer<S>, link: Option<seq<Down>>): seq<Down> {
    if !p.joined then p.rest else if link.Some? then link.value else []
  }

  /** The leader's uncommitted bills, as far as they have been sent to follower `id`. */
  function SentTo<S>(l: Lead<S>, id: int): seq<D.Bill> {
    if l.unsent.Some? && id in l.unsent.value then [] else l.ds.uncommit
  }

  function Rejoined<S>(p: Peer<S>): Peer<S> {
    Peer(Follow(p.f.ds, map[], 1, false, [], p.f.log, p.f.threw, p.f.astray), true, p.session + 1, [], [], [], [])
  }

  function Gone<S>(l: Lead<S>, id: int, p: Peer<S>, link: Option<seq<Down>>): Peer<S> {
    p.(joined := false, up := [], rest := Queue(p, link), cutLog := l.log, cutUncommit := SentTo(l, id))
  }

  function Forget<S>(l: Lead<S>, id: int): Lead<S> {
    SetLink(l, id, None).(unsent := if l.unsent.Some? then Some(l.unsent.value - {id}) else None)
  }

  /** The leader drops the connection. */
  function Cut<S>(s: Sys<S>, id: int): Sys<S>
    requires id in s.peers
  {
    s.(lead := Forget(s.lead, id), peers := s.peers[id := Gone(s.lead, id, s.peers[id], LinkTo(s, id))])
  }

  function CutIfThrown<S>(s: Sys<S>, s': Sys<S>, id: int): Sys<S>
    requires id in s'.peers
  {
    if s'.lead.throws == s.lead.throws then s' else Cut(s', id)
  }

  /** The leader handles one message of follower `id`, already taken off its link. */
  function Handle<S>(m: D.Machine<S>, s: Sys<S>, id: int, msg: Up, nextCount: nat, disk: set<int>): Sys<S>
    requires id in s.peers
  {
    match msg
    case RequestMsg(requestId, data) =>
      var o := Origin(ZxId(s.lead.epoch, s.lead.nextId), id, s.peers[id].session, requestId, data);
      s.(lead := Propose(m, s.lead, id, requestId, data, disk), drafted := s.drafted + [o])
    case AckProposeMsg(zxId) => s.(lead := AckPropose(m, s.lead, id, zxId, nextCount, disk))
  }

  /** What the code does. A server joins with the leader's last id, is sent the leader's uncommitted
      bills and forwarded to from then on. A handler that throws drops its follower's connection. A
      follower that has lost its place in the stream may take what it reads for any message. */
  function Do<S>(m: D.Machine<S>, s: Sys<S>, step: Step): Sys<S> {
    match step
    case Join(id) =>
      if id !in s.peers || s.peers[id].joined || s.peers[id].f.ds.zxId != s.lead.ds.zxId then s
      else
        s.(lead := SetLink(s.lead, id, Some(Pending(s.lead.ds.uncommit))),
           peers := s.peers[id := Rejoined(s.peers[id])])
    case Update(id) =>
      if !Connected(s, id) then s else s.(lead := s.lead.(links := Send(s.lead.links, id, UpdatedMsg)))
    case Leave(id) =>
      if !Connected(s, id) then s else Cut(s, id)
    case LeadSubmit(data, disk) =>
      var o := Origin(ZxId(s.lead.epoch, s.lead.nextId), s.lead.id, 0, s.lead.nextRequestId, data);
      s.(lead := Submit(m, s.lead, data, disk), drafted := s.drafted + [o])
    case FollowSubmits(id, data) =>
      if id !in s.peers || !s.peers[id].f.synced then s
      else
        var p := s.peers[id];
        var (f, msg) := FollowSubmit(p.f, data);
        s.(peers := s.peers[id := p.(f := f, up := if p.joined then p.up + [msg] else p.up)])
    case LeadReads(id, nextCount, disk) =>
      if !Connected(s, id) || s.peers[id].up == [] then s
      else
        CutIfThrown(s, Handle(m, Taken(s, id), id, s.peers[id].up[0], nextCount, disk), id)
    case FollowReads(id, nextCount) =>
      if id !in s.peers || s.peers[id].f.astray || Queue(s.peers[id], LinkTo(s, id)) == [] then s
      else
        var p, queue := s.peers[id], Queue(s.peers[id], LinkTo(s, id));
        var (f, ups) := FollowReceive(m, p.f, queue[0], nextCount);
        if p.joined then
          s.(lead := SetLink(s.lead, id, Some(queue[1..])), peers := s.peers[id := p.(f := f, up := p.up + ups)])
        else s.(peers := s.peers[id := p.(f := f, rest := queue[1..])])
    case ReadsAstray(id, msg, nextCount) =>
      if id !in s.peers || !s.peers[id].f.astray then s
      else
        var p := s.peers[id];
        var (f, ups) := FollowReceive(m, p.f, msg, nextCount);
        s.(peers := s.peers[id := p.(f := f, up := if p.joined then p.up + ups else p.up)])
  }

  /** The leader has taken the next message of follower `id` off its link. */
  function Taken<S>(s: Sys<S>, id: int): Sys<S>
    requires id in s.peers && s.peers[id].up != []
  {
    s.(peers := s.peers[id := s.peers[id].(up := s.peers[id].up[1..])])
  }

  /** What the code leaves to its environment: a server joins with no uncommitted bill of its own and
      not after it has lost its place in a stream, and such a server acknowledges nothing. */
  ghost predicate Allowed<S>(s: Sys<S>, step: Step) {
    && (step.Join? && step.id in s.peers ==> s.peers[step.id].f.ds.uncommit == [] && !s.peers[step.id].f.astray)
    && (step.ReadsAstray? && step.id in s.peers && s.peers[step.id].f.synced ==> !step.msg.ProposeMsg?)
  }

  function Run<S>(m: D.Machine<S>, s: Sys<S>, steps: seq<Step>): Sys<S>
    decreases |steps|
  {
    if steps == [] then s else Run(m, Do(m, s, steps[0]), steps[1..])
  }

  ghost predicate AllowedRun<S>(m: D.Machine<S>, s: Sys<S>, steps: seq<Step>)
    decreases |steps|
  {
    steps != [] ==> Allowed(s, steps[0]) && AllowedRun(m, Do(m, s, steps[0]), steps[1..])
  }

  // ---- Invariant: the leader ----

  ghost predicate Shape<S>(s: Sys<S>) {
    && 1 <= s.lead.id <= |s.lead.links| && s.lead.id !in s.peers && s.lead.links[s.lead.id - 1].None?
    && (forall i :: i in s.peers ==> 1 <= i <= |s.lead.links|)
    && (forall i :: 1 <= i <= |s.lead.links| && i != s.lead.id ==> i in s.peers)
    && (forall d :: d in s.lead.uncommit ==> |d.vote| == |s.lead.links|)
  }

  function FirstId<S>(l: Lead<S>): int {
    ZxId(l.epoch, 1)
  }

  ghost predicate Matches(d: Draft, o: Origin) {
    d.zxId == o.zxId && d.id == o.id && d.requestId == o.requestId && d.data == o.data
  }

  /** The resolved ids followed by the drafts in line are exactly the drafts ever made, in order. */
  ghost predicate Lined(uncommit: seq<Draft>, resolved: seq<int>, drafted: seq<Origin>) {
    && |drafted| == |resolved| + |uncommit|
    && (forall k :: 0 <= k < |resolved| ==> drafted[k].zxId == resolved[k])
    && (forall k :: 0 <= k < |uncommit| ==> Matches(uncommit[k], drafted[|resolved| + k]))
  }

  ghost predicate IdsAscend<S>(l: Lead<S>, drafted: seq<Origin>) {
    && 1 <= l.nextId
    && (forall j, k :: 0 <= j < k < |drafted| ==> drafted[j].zxId < drafted[k].zxId)
    && (forall o :: o in drafted ==> FirstId(l) <= o.zxId < ZxId(l.epoch, l.nextId))
  }

  ghost predicate InOrder<S>(s: Sys<S>) {
    Lined(s.lead.uncommit, s.lead.resolved, s.drafted) && IdsAscend(s.lead, s.drafted)
  }

  function BillOf(o: Origin): D.Bill {
    D.Bill(o.zxId, o.data)
  }

  function FirstBill<S>(l: Lead<S>): D.Bill
    requires l.uncommit != []
  {
    D.Bill(l.uncommit[0].zxId, l.uncommit[0].data)
  }

  ghost predicate IsDrafted(drafted: seq<Origin>, b: D.Bill) {
    exists o :: o in drafted && BillOf(o) == b
  }

  /** The leader's data set holds nothing uncommitted, or exactly the first draft. */
  ghost predicate AtMostOne<S>(l: Lead<S>) {
    l.ds.uncommit == [] || (l.uncommit != [] && l.ds.uncommit == [FirstBill(l)])
  }

  ghost predicate UnsentOk<S>(l: Lead<S>) {
    l.unsent.Some? ==> l.ds.uncommit != [] && forall i :: i in l.unsent.value ==> HasLink(l.links, i)
  }

  /** The first draft has been logged and sent. */
  ghost predicate Launched<S>(l: Lead<S>) {
    l.uncommit != [] && l.ds.uncommit != [] && l.unsent.None?
  }

  /** Drafts are in line and none of them has been sent: the term makes no more commits. */
  ghost predicate Stalled<S>(l: Lead<S>) {
    l.uncommit != [] && !Launched(l)
  }

  /** A retained log is the end of the whole one, and state and last id are those of the whole one. */
  ghost predicate LogOk<S>(m: D.Machine<S>, init: S, ds: D.DataSet<S>, log: seq<D.Bill>) {
    && D.Ascending(0, log) && ds.zxId == D.LastId(0, log) && ds.state == D.Fold(m, init, log)
    && D.IsEnd(ds.commitLog, log)
  }

  ghost predicate LeadLog<S>(m: D.Machine<S>, init: S, l: Lead<S>) {
    && LogOk(m, init, l.ds, l.log) && 0 < FirstId(l)
    && (forall b, d :: b in l.log && d in l.uncommit ==> b.zxId < d.zxId)
    && (forall b :: b in l.log ==> b.zxId < ZxId(l.epoch, l.nextId))
  }

  // ---- Invariant: links and followers ----

  /** A server that was never brought into this term: its log ends elsewhere. */
  ghost predicate Stranger<S>(l: Lead<S>, log: seq<D.Bill>) {
    D.LastId(0, log) != D.LastId(0, l.log) && D.LastId(0, log) < FirstId(l)
  }

  /** Draft `zxId` was made for request `requestId` of server `id`, and its bill is in `log`. */
  ghost predicate Served(drafted: seq<Origin>, id: int, requestId: int, zxId: int, log: seq<D.Bill>) {
    exists o :: o in drafted && o.zxId == zxId && o.id == id && o.requestId == requestId && BillOf(o) in log
  }

  /** Draft `zxId` was made for request `requestId` of server `id`. */
  ghost predicate Asked(drafted: seq<Origin>, id: int, requestId: int, zxId: int) {
    exists o :: o in drafted && o.zxId == zxId && o.id == id && o.requestId == requestId
  }

  /** Reading `link` takes a server from (log, uncommit) to (log', uncommit'), meeting each commit
      with its bill first in line, each answer with its draft made, and each success with its bill
      applied. */
  ghost predicate Leads(drafted: seq<Origin>, id: int, log: seq<D.Bill>, uncommit: seq<D.Bill>,
                        link: seq<Down>, log': seq<D.Bill>, uncommit': seq<D.Bill>)
    decreases |link|
  {
    if link == [] then log == log' && uncommit == uncommit'
    else match link[0]
      case ProposeMsg(zxId, data) =>
        var b := D.Bill(zxId, data);
        IsDrafted(drafted, b) && Leads(drafted, id, log, uncommit + [b], link[1..], log', uncommit')
      case CommitMsg(zxId) =>
        && uncommit != [] && uncommit[0].zxId == zxId
        && Leads(drafted, id, log + [uncommit[0]], uncommit[1..], link[1..], log', uncommit')
      case RequestAckMsg(requestId, success, about) =>
        && Asked(drafted, id, requestId, about) && (success ==> Served(drafted, id, requestId, about, log))
        && Leads(drafted, id, log, uncommit, link[1..], log', uncommit')
      case UpdatedMsg => Leads(drafted, id, log, uncommit, link[1..], log', uncommit')
  }

  ghost predicate Holds<S>(f: Follow<S>, b: D.Bill) {
    b in f.log || b in f.ds.uncommit
  }

  ghost predicate AckBacked<S>(drafted: seq<Origin>, f: Follow<S>, zxId: int) {
    exists o :: o in drafted && o.zxId == zxId && Holds(f, BillOf(o))
  }

  /** A server's requests belong to its sessions so far, and to this one only once it is up to date;
      those of this one carry its data. */
  ghost predicate RequestsOk<S>(drafted: seq<Origin>, id: int, session: nat, f: Follow<S>) {
    && (forall o :: o in drafted && o.id == id ==> o.session <= session)
    && (forall o :: o in drafted && o.id == id ==> 1 <= o.requestId)
    && (forall o :: o in drafted && o.id == id && o.session == session ==> f.synced)
    && (forall o :: o in drafted && o.id == id && o.session == session ==>
          o.requestId < f.nextRequestId && (o.requestId in f.callbacks ==> f.callbacks[o.requestId] == o.data))
  }

  ghost predicate CallsOk(callbacks: map<int, string>, nextRequestId: int, calls: seq<Call>) {
    && 1 <= nextRequestId && (forall r :: r in callbacks ==> r < nextRequestId)
    && (forall c :: c in calls ==> c.requestId < nextRequestId && c.requestId !in callbacks)
    && (forall j, k :: 0 <= j < k < |calls| ==> calls[j].requestId != calls[k].requestId)
  }

  /** A success reported to a client answers draft `o`, whose bill is applied; it is for this client's
      own data if the draft is of this session. */
  ghost predicate Backs(o: Origin, id: int, session: nat, c: Call, log: seq<D.Bill>) {
    && o.zxId == c.zxId && o.id == id && o.requestId == c.requestId && BillOf(o) in log
    && (o.session == session ==> o.data == c.data)
  }

  ghost predicate SuccessBacked(drafted: seq<Origin>, id: int, session: nat, calls: seq<Call>, log: seq<D.Bill>) {
    forall c :: c in calls && c.success ==> exists o :: o in drafted && Backs(o, id, session, c, log)
  }

  /** A follower with `queue` to read, which leads to (log', uncommit'). */
  ghost predicate FollowOk<S>(m: D.Machine<S>, init: S, drafted: seq<Origin>, id: int, session: nat, f: Follow<S>,
                              queue: seq<Down>, log': seq<D.Bill>, uncommit': seq<D.Bill>)
  {
    && LogOk(m, init, f.ds, f.log) && !f.threw && !f.astray
    && Leads(drafted, id, f.log, f.ds.uncommit, queue, log', uncommit')
    && RequestsOk(drafted, id, session, f)
    && CallsOk(f.callbacks, f.nextRequestId, f.calls)
    && SuccessBacked(drafted, id, session, f.calls, f.log)
  }

  /** What a server has sent: acknowledgements of bills it holds, and requests of its own. */
  ghost predicate UpOk<S>(drafted: seq<Origin>, f: Follow<S>, up: seq<Up>) {
    && (!f.synced ==> up == [])
    && (forall zxId :: AckProposeMsg(zxId) in up ==> AckBacked(drafted, f, zxId))
    && (forall r, data :: RequestMsg(r, data) in up ==>
          1 <= r < f.nextRequestId && (r in f.callbacks ==> f.callbacks[r] == data))
  }

  /** A bill logged but not sent is never acknowledged: only a server that joins later gets it, first
      of all, while it does not yet acknowledge. */
  ghost predicate Quiet<S>(l: Lead<S>, p: Peer<S>, link: seq<Down>) {
    l.unsent.Some? && l.ds.uncommit != [] ==>
      var b := l.ds.uncommit[0];
      var msg := ProposeMsg(b.zxId, b.data);
      AckProposeMsg(b.zxId) !in p.up && (msg in link ==> !p.f.synced && link[0] == msg && msg !in link[1..])
  }

  /** All that is known of a server that has lost its place in the stream. */
  ghost predicate AstrayOk<S>(drafted: seq<Origin>, id: int, p: Peer<S>) {
    && RequestsOk(drafted, id, p.session, p.f) && CallsOk(p.f.callbacks, p.f.nextRequestId, p.f.calls)
    && forall zxId :: AckProposeMsg(zxId) !in p.up
  }

  ghost predicate PeerOk<S>(m: D.Machine<S>, init: S, l: Lead<S>, drafted: seq<Origin>, id: int, p: Peer<S>,
                            link: Option<seq<Down>>)
  {
    && (link.Some? <==> p.joined)
    && UpOk(drafted, p.f, p.up)
    && if p.f.astray then AstrayOk(drafted, id, p)
       else if p.joined then
         && FollowOk(m, init, drafted, id, p.session, p.f, link.value, l.log, SentTo(l, id))
         && Quiet(l, p, link.value)
       else
         && FollowOk(m, init, drafted, id, p.session, p.f, p.rest, p.cutLog, p.cutUncommit)
         && (p.cutLog <= l.log || (p.session == 0 && p.rest == [] && Stranger(l, p.f.log)))
  }

  ghost predicate PeersOk<S>(m: D.Machine<S>, init: S, s: Sys<S>) {
    forall i :: i in s.peers ==> PeerOk(m, init, s.lead, s.drafted, i, s.peers[i], LinkTo(s, i))
  }

  predicate Voted(vote: seq<bool>, j: int) {
    1 <= j <= |vote| && vote[j - 1]
  }

  predicate HasVote(d: Draft, j: int) {
    Voted(d.vote, j)
  }

  /** A vote is the requester's own or comes from a follower that has logged the draft. */
  ghost predicate VoteBacked<S>(leader: int, peers: map<int, Peer<S>>, d: Draft, j: int) {
    j == d.id || (j != leader && j in peers && Holds(peers[j].f, D.Bill(d.zxId, d.data)))
  }

  ghost predicate Votes<S>(s: Sys<S>) {
    forall d, j :: d in s.lead.uncommit && HasVote(d, j) ==> VoteBacked(s.lead.id, s.peers, d, j)
  }

  ghost predicate LeadCalls<S>(s: Sys<S>) {
    var l := s.lead;
    && (forall o :: o in s.drafted && o.id == l.id ==>
          && o.session == 0 && o.requestId < l.nextRequestId
          && (o.requestId in l.callbacks ==> l.callbacks[o.requestId] == o.data))
    && CallsOk(l.callbacks, l.nextRequestId, l.calls)
    && SuccessBacked(s.drafted, l.id, 0, l.calls, l.log)
  }

  ghost predicate LeadOk<S>(m: D.Machine<S>, init: S, s: Sys<S>) {
    && Shape(s) && InOrder(s) && AtMostOne(s.lead) && UnsentOk(s.lead)
    && LeadLog(m, init, s.lead) && Votes(s) && LeadCalls(s)
  }

  ghost predicate Inv<S>(m: D.Machine<S>, init: S, s: Sys<S>) {
    LeadOk(m, init, s) && PeersOk(m, init, s)
  }

  /** A server that has not joined yet; if its last id is the leader's, it has the leader's log. */
  ghost predicate IsNew<S>(m: D.Machine<S>, init: S, l: Lead<S>, p: Peer<S>) {
    && !p.joined && p.session == 0 && p.up == [] && p.f.callbacks == map[] && p.f.calls == []
    && 1 <= p.f.nextRequestId && !p.f.threw && !p.f.astray
    && p.rest == [] && p.cutLog == p.f.log && p.cutUncommit == p.f.ds.uncommit
    && LogOk(m, init, p.f.ds, p.f.log) && (p.f.log <= l.log || Stranger(l, p.f.log))
  }

  /** The start of a term: nobody has joined, nothing is in line, and the leader holds nothing
      uncommitted. */
  ghost predicate Starts<S>(m: D.Machine<S>, init: S, s: Sys<S>) {
    && Shape(s) && LeadLog(m, init, s.lead)
    && s.drafted == [] && s.lead.uncommit == [] && s.lead.resolved == [] && s.lead.ds.uncommit == []
    && s.lead.nextId == 1 && 1 <= s.lead.nextRequestId
    && s.lead.callbacks == map[] && s.lead.calls == [] && s.lead.unsent.None?
    && (forall k :: 0 <= k < |s.lead.links| ==> s.lead.links[k].None?)
    && forall i :: i in s.peers ==> IsNew(m, init, s.lead, s.peers[i])
  }
}
