/** What the leader and a follower do with one request or one message, as functions of their values. */
module BroadcastSpec {
  import opened Common
  import D = DataSetSpec

  /** The id in an answer is a history field: it names the draft answered, and nobody acts on it. */
  datatype Down =
    | ProposeMsg(zxId: int, data: string)
    | CommitMsg(zxId: int)
    | RequestAckMsg(requestId: int, success: bool, zxId: int)
    | UpdatedMsg

  datatype Up = RequestMsg(requestId: int, data: string) | AckProposeMsg(zxId: int)

  /** A client's callback being called: the request, the data it had asked to write, the answer, and
      the draft that the answer is about (history). */
  datatype Call = Call(requestId: int, data: string, success: bool, zxId: int)

  datatype Draft = Draft(id: int, requestId: int, zxId: int, data: string, vote: seq<bool>)

  /** `uncommit` is in zxId order. `links[i - 1]` holds what has been sent to follower `i` and not
      yet read, or None if nothing is forwarded to it. History variables: `log` (every bill
      committed, including those cut from the retained log), `resolved`, `calls` (the callbacks
      called), `throws` (exceptions thrown in handlers) and `unsent` (if a bill has been logged but
      not sent, the followers it should have gone to). */
  datatype Lead<S> = Lead(
    id: int,
    epoch: int,
    nextId: int,
    uncommit: seq<Draft>,
    callbacks: map<int, string>,
    nextRequestId: int,
    links: seq<Option<seq<Down>>>,
    ds: D.DataSet<S>,
    calls: seq<Call>,
    log: seq<D.Bill>,
    resolved: seq<int>,
    throws: nat,
    unsent: Option<set<int>>)

  datatype Follow<S> = Follow(
    ds: D.DataSet<S>,
    callbacks: map<int, string>,
    nextRequestId: int,
    synced: bool,
    calls: seq<Call>,
    log: seq<D.Bill>,
    threw: bool,
    astray: bool)

  // The message types that a follower tells apart.
  const PX_UPDATED := 7
  const PX_REQUEST_ACK := 11
  const PX_PROPOSE := 12
  const PX_COMMIT := 14

  /** What becomes of an answer's body where each byte is taken for a message type. */
  datatype Skimmed = Skipped | TakenForUpdated | TakenForMessage

  /** The lowest `k` bytes of `n`, lowest first; `updated` is whether one of them has already been
      taken for the end of the synchronisation. */
  function SkimBytes(n: int, k: nat, updated: bool): Skimmed
    decreases k
  {
    if k == 0 then if updated then TakenForUpdated else Skipped
    else
      var b := n % 256;
      if b == PX_PROPOSE || b == PX_COMMIT || (updated && b == PX_REQUEST_ACK) then TakenForMessage
      else SkimBytes(n / 256, k - 1, updated || b == PX_UPDATED)
  }

  /** The request number has eight bytes; the byte after them, 0 or 1, is no message type. */
  function Skim(requestId: int): Skimmed {
    SkimBytes(requestId, 8, false)
  }

  /** Exact while a term has fewer than 2^32 proposals. */
  function ZxId(epoch: int, id: int): int {
    epoch * 0x1_0000_0000 + id
  }

  /** Ids of a later term are larger than all of an earlier one, and in one term they ascend. */
  lemma ZxIdsAscendIff(epoch: int, id: int, epoch': int, id': int)
    requires 0 <= id < 0x1_0000_0000 && 0 <= id' < 0x1_0000_0000
    ensures ZxId(epoch, id) < ZxId(epoch', id') <==> epoch < epoch' || (epoch == epoch' && id < id')
  {
  }

  function CountTrue(vote: seq<bool>): (n: nat)
    ensures n <= |vote|
  {
    if vote == [] then 0 else CountTrue(vote[..|vote| - 1]) + if vote[|vote| - 1] then 1 else 0
  }

  function Send(links: seq<Option<seq<Down>>>, id: int, m: Down): (r: seq<Option<seq<Down>>>)
    ensures |r| == |links|
  {
    if 1 <= id <= |links| && links[id - 1].Some? then links[id - 1 := Some(links[id - 1].value + [m])] else links
  }

  function Extend(link: Option<seq<Down>>, m: Down): Option<seq<Down>> {
    if link.Some? then Some(link.value + [m]) else None
  }

  function SendAll(links: seq<Option<seq<Down>>>, m: Down): (r: seq<Option<seq<Down>>>)
    ensures |r| == |links| && forall i :: 0 <= i < |r| ==> r[i] == Extend(links[i], m)
  {
    seq(|links|, i requires 0 <= i < |links| => Extend(links[i], m))
  }

  /** What a server that joins is sent before anything is forwarded to it. */
  function Pending(bills: seq<D.Bill>): seq<Down> {
    if bills == [] then [] else [ProposeMsg(bills[0].zxId, bills[0].data)] + Pending(bills[1..])
  }

  function SetLink<S>(l: Lead<S>, id: int, link: Option<seq<Down>>): Lead<S> {
    if 1 <= id <= |l.links| then l.(links := l.links[id - 1 := link]) else l
  }

  /** The leader's own clients are called back; another server is sent the answer. */
  function Reply<S>(l: Lead<S>, d: Draft, success: bool): Lead<S> {
    if d.id != l.id then l.(links := Send(l.links, d.id, RequestAckMsg(d.requestId, success, d.zxId)))
    else if d.requestId !in l.callbacks then l
    else
      l.(calls := l.calls + [Call(d.requestId, l.callbacks[d.requestId], success, d.zxId)],
         callbacks := l.callbacks - {d.requestId})
  }

  function Throw<S>(l: Lead<S>): Lead<S> {
    l.(throws := l.throws + 1)
  }

  function EraseFirst<S>(l: Lead<S>): (r: Lead<S>)
    requires l.uncommit != []
    ensures r.uncommit == l.uncommit[1..]
  {
    l.(uncommit := l.uncommit[1..], resolved := l.resolved + [l.uncommit[0].zxId])
  }

  function DropFirst<S>(l: Lead<S>): (r: Lead<S>)
    requires l.uncommit != []
    ensures r.uncommit == l.uncommit[1..]
  {
    Reply(EraseFirst(l), l.uncommit[0], false)
  }

  function LogFirst<S>(l: Lead<S>): Lead<S>
    requires l.uncommit != []
  {
    l.(ds := D.Propose(l.ds, l.uncommit[0].zxId, l.uncommit[0].data, true))
  }

  function LaunchFirst<S>(l: Lead<S>): Lead<S>
    requires l.uncommit != []
  {
    LogFirst(l).(links := SendAll(l.links, ProposeMsg(l.uncommit[0].zxId, l.uncommit[0].data)))
  }

  /** The followers that something is forwarded to. */
  function Linked<S>(l: Lead<S>): set<int> {
    set i | 1 <= i <= |l.links| && HasLink(l.links, i)
  }

  predicate HasLink(links: seq<Option<seq<Down>>>, id: int) {
    1 <= id <= |links| && links[id - 1].Some?
  }

  /** A draft is refused if it fails the check or the disk does not accept it. */
  predicate Refused<S>(m: D.Machine<S>, l: Lead<S>, disk: set<int>)
    requires l.uncommit != []
  {
    !m.preCheck(l.ds.state, l.uncommit[0].data) || l.uncommit[0].zxId !in disk
  }

  /** Logs and sends the first draft that is not refused. Each turn releases the lock, and `owned` is
      whether this call still has it: releasing it a second time throws, before the bill just logged
      is sent or the draft just erased is answered. */
  function LaunchNextDraft<S>(m: D.Machine<S>, l: Lead<S>, disk: set<int>, owned: bool): Lead<S>
    decreases |l.uncommit|
  {
    if l.uncommit == [] then l
    else if D.CheckOrDrop(m, l.ds, l.uncommit[0].data).None? then Throw(l)
    else if Refused(m, l, disk) then
      if owned then LaunchNextDraft(m, DropFirst(l), disk, false) else Throw(EraseFirst(l))
    else
      if owned then LaunchFirst(l) else Throw(LogFirst(l)).(unsent := Some(Linked(l)))
  }

  /** The requester's vote is counted from the start. */
  function NewDraft<S>(l: Lead<S>, id: int, requestId: int, data: string): Draft {
    Draft(id, requestId, ZxId(l.epoch, l.nextId), data, seq(|l.links|, i => i == id - 1))
  }

  function Enqueue<S>(l: Lead<S>, id: int, requestId: int, data: string): Lead<S> {
    l.(nextId := l.nextId + 1, uncommit := l.uncommit + [NewDraft(l, id, requestId, data)])
  }

  function Propose<S>(m: D.Machine<S>, l: Lead<S>, id: int, requestId: int, data: string, disk: set<int>): Lead<S> {
    var l' := Enqueue(l, id, requestId, data);
    if |l'.uncommit| == 1 then LaunchNextDraft(m, l', disk, true) else l'
  }

  function AddCallback<S>(l: Lead<S>, data: string): Lead<S> {
    l.(nextRequestId := l.nextRequestId + 1, callbacks := l.callbacks[l.nextRequestId := data])
  }

  function Submit<S>(m: D.Machine<S>, l: Lead<S>, data: string, disk: set<int>): Lead<S> {
    Propose(m, AddCallback(l, data), l.id, l.nextRequestId, data, disk)
  }

  function Vote<S>(l: Lead<S>, id: int): Lead<S>
    requires l.uncommit != []
  {
    var d := l.uncommit[0];
    if 1 <= id <= |d.vote| then l.(uncommit := l.uncommit[0 := d.(vote := d.vote[id - 1 := true])]) else l
  }

  predicate HasQuorum(vote: seq<bool>) {
    |vote| / 2 + 1 <= CountTrue(vote)
  }

  function CommitFirst<S>(m: D.Machine<S>, l: Lead<S>, nextCount: nat): Lead<S>
    requires l.uncommit != [] && l.ds.uncommit != []
  {
    var d := l.uncommit[0];
    Reply(EraseFirst(l).(ds := D.CommitFirst(m, l.ds, nextCount), log := l.log + [l.ds.uncommit[0]],
                         links := SendAll(l.links, CommitMsg(d.zxId))),
          d, true)
  }

  function AckPropose<S>(m: D.Machine<S>, l: Lead<S>, id: int, zxId: int, nextCount: nat, disk: set<int>): Lead<S> {
    if l.uncommit == [] || l.uncommit[0].zxId != zxId then l
    else
      var l' := Vote(l, id);
      if !HasQuorum(l'.uncommit[0].vote) then l'
      else if D.Commit(m, l'.ds, zxId, nextCount).None? then Throw(l')
      else LaunchNextDraft(m, CommitFirst(m, l', nextCount), disk, true)
  }

  function FollowSubmit<S>(f: Follow<S>, data: string): (Follow<S>, Up) {
    (f.(nextRequestId := f.nextRequestId + 1, callbacks := f.callbacks[f.nextRequestId := data]),
     RequestMsg(f.nextRequestId, data))
  }

  function TakeAnswer<S>(f: Follow<S>, requestId: int, success: bool, about: int): Follow<S> {
    if requestId !in f.callbacks then f
    else
      f.(calls := f.calls + [Call(requestId, f.callbacks[requestId], success, about)],
         callbacks := f.callbacks - {requestId})
  }

  function SkimAnswer<S>(f: Follow<S>, requestId: int): Follow<S> {
    match Skim(requestId)
    case Skipped => f
    case TakenForUpdated => f.(synced := true)
    case TakenForMessage => f.(astray := true)
  }

  /** Until the leader has said the follower is up to date, proposals are logged but not acknowledged,
      and an answer's type is not known: its body is read on byte by byte. Once a byte has been taken
      for the type of a longer message, the follower has lost its place in the stream. */
  function FollowReceive<S>(m: D.Machine<S>, f: Follow<S>, msg: Down, nextCount: nat): (Follow<S>, seq<Up>) {
    match msg
    case ProposeMsg(zxId, data) =>
      (f.(ds := D.Propose(f.ds, zxId, data, true)), if f.synced then [AckProposeMsg(zxId)] else [])
    case CommitMsg(zxId) =>
      var ds := D.Commit(m, f.ds, zxId, nextCount);
      if ds.None? then (f.(threw := true), [])
      else (f.(ds := ds.value, log := f.log + [f.ds.uncommit[0]]), [])
    case RequestAckMsg(requestId, success, about) =>
      (if f.synced then TakeAnswer(f, requestId, success, about) else SkimAnswer(f, requestId), [])
    case UpdatedMsg => (f.(synced := true), [])
  }

  // ---- When the launch throws ----

  /** It throws exactly if an older bill is still uncommitted, or if at least two drafts are in line
      and the first of them is refused. */
  lemma {:induction false} LaunchThrowsIff<S>(m: D.Machine<S>, l: Lead<S>, disk: set<int>)
    ensures LaunchNextDraft(m, l, disk, true).throws == l.throws + 1 <==>
              l.uncommit != [] && (l.ds.uncommit != [] || (2 <= |l.uncommit| && Refused(m, l, disk)))
    ensures l.throws <= LaunchNextDraft(m, l, disk, true).throws <= l.throws + 1
  {
    if l.uncommit != [] && l.ds.uncommit == [] && Refused(m, l, disk) {
      assert LaunchNextDraft(m, DropFirst(l), disk, false).throws ==
             if |l.uncommit| == 1 then l.throws else l.throws + 1;
    }
  }

  /** After a throw nothing is launched: either the next draft is logged but unsent, or it is gone
      without an answer and the one behind it waits. */
  lemma {:induction false} LaunchLeaves<S>(m: D.Machine<S>, l: Lead<S>, disk: set<int>)
    requires l.ds.uncommit == [] && l.unsent.None?
    ensures var l' := LaunchNextDraft(m, l, disk, true);
            && (l'.throws == l.throws ==> (l'.uncommit != [] ==> l'.ds.uncommit != []) && l'.unsent.None?)
            && (l'.throws != l.throws ==>
                 if l'.unsent.Some? then |l'.uncommit| == |l.uncommit| - 1 && l'.ds.uncommit != []
                 else |l'.uncommit| == |l.uncommit| - 2 && l'.ds.uncommit == [])
            && l'.log == l.log && |l'.links| == |l.links|
  {
    if l.uncommit != [] && Refused(m, l, disk) {
      var l1 := DropFirst(l);
      assert l1.ds == l.ds && l1.unsent == l.unsent && l1.log == l.log && |l1.links| == |l.links|
             && l1.throws == l.throws;
    }
  }
}
