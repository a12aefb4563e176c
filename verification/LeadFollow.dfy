/** The leader and follower objects, updated in place and proved against BroadcastSpec. */
module LeadFollow {
  import opened Common
  import opened DataSet
  import D = DataSetSpec
  import B = BroadcastSpec

  class Lead<S> {
    const id: int
    const epoch: int
    const dataset: Data<S>
    var nextId: int
    var uncommit: seq<B.Draft>
    var callbacks: map<int, string>
    var nextRequestId: int
    var links: seq<Option<seq<B.Down>>>
    var calls: seq<B.Call>
    ghost var log: seq<D.Bill>
    ghost var resolved: seq<int>
    ghost var throws: nat
    ghost var unsent: Option<set<int>>

    ghost function State(): B.Lead<S>
      reads this, dataset
    {
      B.Lead(id, epoch, nextId, uncommit, callbacks, nextRequestId, links, dataset.State(), calls, log, resolved,
             throws, unsent)
    }

    constructor (id: int, epoch: int, dataset: Data<S>, serverCount: nat, ghost log: seq<D.Bill>)
      ensures State() ==
                B.Lead(id, epoch, 1, [], map[], 1, seq(serverCount, _ => None), dataset.State(), [], log, [], 0, None)
      ensures this.dataset == dataset
    {
      this.id, this.epoch, this.dataset := id, epoch, dataset;
      nextId, uncommit, callbacks, nextRequestId, calls := 1, [], map[], 1, [];
      links := seq(serverCount, _ => None);
      this.log, resolved, throws, unsent := log, [], 0, None;
    }

    method SendToAll(m: B.Down)
      modifies this`links
      ensures links == B.SendAll(old(links), m)
    {
      for i := 0 to |links|
        invariant |links| == |old(links)|
        invariant forall j :: 0 <= j < i ==> links[j] == B.Extend(old(links)[j], m)
        invariant forall j :: i <= j < |links| ==> links[j] == old(links)[j]
      {
        if links[i].Some? {
          links := links[i := Some(links[i].value + [m])];
        }
      }
    }

    method Answer(draft: B.Draft, success: bool)
      modifies this`links, this`calls, this`callbacks
      ensures State() == B.Reply(old(State()), draft, success)
    {
      if draft.id != id {
        links := B.Send(links, draft.id, B.RequestAckMsg(draft.requestId, success, draft.zxId));
      } else if draft.requestId in callbacks {
        calls := calls + [B.Call(draft.requestId, callbacks[draft.requestId], success, draft.zxId)];
        callbacks := callbacks - {draft.requestId};
      }
    }

    method EraseFirst()
      requires uncommit != []
      modifies this`uncommit, this`resolved
      ensures State() == B.EraseFirst(old(State()))
    {
      resolved := resolved + [uncommit[0].zxId];
      uncommit := uncommit[1..];
    }

    /** `ok` is false where the code throws. `owned` is the state of the lock's guard: unlocking it
        when it is not owned throws. */
    method LaunchNextDraft(disk: set<int>) returns (ok: bool)
      modifies this, dataset
      ensures State() == B.LaunchNextDraft(dataset.machine, old(State()), disk, true)
      ensures ok == (throws == old(throws))
    {
      var owned := true;
      while uncommit != []
        invariant throws == old(throws)
        invariant B.LaunchNextDraft(dataset.machine, State(), disk, owned)
               == B.LaunchNextDraft(dataset.machine, old(State()), disk, true)
        decreases |uncommit|
      {
        var draft := uncommit[0];
        var valid, passed := dataset.CheckOrDrop(draft.data);
        if !valid {
          throws := throws + 1;
          return false;
        }
        var saved := false;
        if passed {
          saved := dataset.Propose(draft.zxId, draft.data, draft.zxId in disk);
        }
        if saved {
          if !owned {
            unsent, throws := Some(B.Linked(State())), throws + 1;
            return false;
          }
          SendToAll(B.ProposeMsg(draft.zxId, draft.data));
          return true;
        }
        EraseFirst();
        if !owned {
          throws := throws + 1;
          return false;
        }
        owned := false;
        Answer(draft, false);
      }
      ok := true;
    }

    /** A server joins at the leader's last id: it is sent the uncommitted bills and forwarded to from then on. */
    method SyncFollower(id: int)
      requires 1 <= id <= |links|
      modifies this`links
      ensures State() == B.SetLink(old(State()), id, Some(B.Pending(dataset.uncommit)))
    {
      var sent: seq<B.Down> := [];
      for i := 0 to |dataset.uncommit|
        invariant sent + B.Pending(dataset.uncommit[i..]) == B.Pending(dataset.uncommit)
      {
        assert dataset.uncommit[i..][1..] == dataset.uncommit[i + 1..];
        sent := sent + [B.ProposeMsg(dataset.uncommit[i].zxId, dataset.uncommit[i].data)];
      }
      assert sent == B.Pending(dataset.uncommit) by {
        assert dataset.uncommit[|dataset.uncommit|..] == [] && sent + [] == sent;
      }
      links := links[id - 1 := Some(sent)];
    }

    method Unregister(id: int)
      requires 1 <= id <= |links|
      modifies this`links
      ensures State() == B.SetLink(old(State()), id, None)
    {
      links := links[id - 1 := None];
    }

    /** A follower's request, or one of the leader's own. */
    method Propose(id: int, requestId: int, data: string, disk: set<int>) returns (ok: bool)
      requires 1 <= id <= |links|
      modifies this, dataset
      ensures State() == B.Propose(dataset.machine, old(State()), id, requestId, data, disk)
      ensures ok == (throws == old(throws))
    {
      var vote := seq(|links|, _ => false);
      vote := vote[id - 1 := true];
      assert vote == B.NewDraft(State(), id, requestId, data).vote;
      uncommit := uncommit + [B.Draft(id, requestId, B.ZxId(epoch, nextId), data, vote)];
      nextId := nextId + 1;
      ok := true;
      if |uncommit| == 1 {
        ok := LaunchNextDraft(disk);
      }
    }

    method Submit(data: string, disk: set<int>) returns (ok: bool)
      requires 1 <= id <= |links|
      modifies this, dataset
      ensures State() == B.Submit(dataset.machine, old(State()), data, disk)
      ensures ok == (throws == old(throws))
    {
      var requestId := nextRequestId;
      nextRequestId := nextRequestId + 1;
      callbacks := callbacks[requestId := data];
      ok := Propose(id, requestId, data, disk);
    }

    /** The data set's own commit; a bill that is not first in line throws. */
    method CommitBill(zxId: int, nextCount: nat) returns (ok: bool)
      modifies this`log, this`throws, dataset
      ensures ok == D.Commit(dataset.machine, old(dataset.State()), zxId, nextCount).Some?
      ensures ok ==> old(dataset.uncommit) != []
      ensures dataset.State() ==
                if ok then D.CommitFirst(dataset.machine, old(dataset.State()), nextCount) else old(dataset.State())
      ensures log == if ok then old(log) + [old(dataset.uncommit)[0]] else old(log)
      ensures throws == old(throws) + if ok then 0 else 1
    {
      ghost var bills := dataset.uncommit;
      ok := dataset.Commit(zxId, nextCount, true);
      if ok {
        log := log + [bills[0]];
      } else {
        throws := throws + 1;
      }
    }

    method AnnounceFirst()
      requires uncommit != []
      modifies this`uncommit, this`resolved, this`links, this`calls, this`callbacks
      ensures var l, d := old(State()), old(uncommit)[0];
              State() == B.Reply(B.EraseFirst(l).(links := B.SendAll(l.links, B.CommitMsg(d.zxId))), d, true)
    {
      var draft := uncommit[0];
      EraseFirst();
      SendToAll(B.CommitMsg(draft.zxId));
      Answer(draft, true);
    }

    method CommitFirst(nextCount: nat) returns (ok: bool)
      requires uncommit != []
      modifies this, dataset
      ensures ok == D.Commit(dataset.machine, old(dataset.State()), old(uncommit)[0].zxId, nextCount).Some?
      ensures State() == if ok then B.CommitFirst(dataset.machine, old(State()), nextCount) else B.Throw(old(State()))
    {
      ok := CommitBill(uncommit[0].zxId, nextCount);
      if ok {
        AnnounceFirst();
      }
    }

    method AckPropose(id: int, zxId: int, nextCount: nat, disk: set<int>) returns (ok: bool)
      requires 1 <= id <= |links|
      requires forall d :: d in uncommit ==> |d.vote| == |links|
      modifies this, dataset
      ensures State() == B.AckPropose(dataset.machine, old(State()), id, zxId, nextCount, disk)
      ensures ok == (throws == old(throws))
    {
      ok := true;
      if uncommit != [] && uncommit[0].zxId == zxId {
        var draft := uncommit[0];
        draft := draft.(vote := draft.vote[id - 1 := true]);
        uncommit := uncommit[0 := draft];
        assert State() == B.Vote(old(State()), id);
        if |draft.vote| / 2 + 1 <= B.CountTrue(draft.vote) {
          ok := CommitFirst(nextCount);
          if ok {
            ok := LaunchNextDraft(disk);
          }
        }
      }
    }
  }

  class Follow<S> {
    const dataset: Data<S>
    var callbacks: map<int, string>
    var nextRequestId: int
    var synced: bool
    var calls: seq<B.Call>
    var threw: bool
    var astray: bool
    var outbox: seq<B.Up>
    ghost var log: seq<D.Bill>

    ghost function State(): B.Follow<S>
      reads this, dataset
    {
      B.Follow(dataset.State(), callbacks, nextRequestId, synced, calls, log, threw, astray)
    }

    constructor (dataset: Data<S>, ghost log: seq<D.Bill>)
      ensures State() == B.Follow(dataset.State(), map[], 1, false, [], log, false, false)
      ensures this.dataset == dataset && outbox == []
    {
      this.dataset, callbacks, nextRequestId, synced, calls, outbox := dataset, map[], 1, false, [], [];
      threw, astray := false, false;
      this.log := log;
    }

    method Propose(data: string)
      modifies this
      ensures var (f, m) := B.FollowSubmit(old(State()), data);
              State() == f && outbox == old(outbox) + [m]
    {
      var requestId := nextRequestId;
      nextRequestId := nextRequestId + 1;
      callbacks := callbacks[requestId := data];
      outbox := outbox + [B.RequestMsg(requestId, data)];
    }

    method CommitBill(zxId: int, nextCount: nat)
      modifies this`log, this`threw, dataset
      ensures var (f, _) := B.FollowReceive(dataset.machine, old(State()), B.CommitMsg(zxId), nextCount);
              State() == f
    {
      ghost var before := dataset.State();
      var ok := dataset.Commit(zxId, nextCount, true);
      assert Some(dataset.State()) == if ok then D.Commit(dataset.machine, before, zxId, nextCount) else Some(before);
      if ok {
        log := log + [before.uncommit[0]];
      } else {
        threw := true;
      }
    }

    method TakeAnswer(requestId: int, success: bool, about: int)
      modifies this`calls, this`callbacks
      ensures State() == B.TakeAnswer(old(State()), requestId, success, about)
    {
      if requestId in callbacks {
        calls := calls + [B.Call(requestId, callbacks[requestId], success, about)];
        callbacks := callbacks - {requestId};
      }
    }

    /** Before the follower is up to date, it takes each byte of an answer for a message type. */
    method SkimAnswer(requestId: int)
      modifies this`synced, this`astray
      ensures State() == B.SkimAnswer(old(State()), requestId)
    {
      var n, left, updated := requestId, 8, false;
      while left > 0
        invariant left >= 0 && B.Skim(requestId) == B.SkimBytes(n, left, updated)
      {
        var tag := n % 256;
        if tag == B.PX_PROPOSE || tag == B.PX_COMMIT || (updated && tag == B.PX_REQUEST_ACK) {
          astray := true;
          return;
        }
        n, left, updated := n / 256, left - 1, updated || tag == B.PX_UPDATED;
      }
      if updated {
        synced := true;
      }
    }

    /** One turn of the message loop. */
    method ProcessMessage(m: B.Down, nextCount: nat)
      modifies this, dataset
      ensures var (f, ups) := B.FollowReceive(dataset.machine, old(State()), m, nextCount);
              State() == f && outbox == old(outbox) + ups
    {
      match m
      case ProposeMsg(zxId, data) =>
        var saved := dataset.Propose(zxId, data, true);
        if synced {
          outbox := outbox + [B.AckProposeMsg(zxId)];
        }
      case CommitMsg(zxId) =>
        CommitBill(zxId, nextCount);
      case RequestAckMsg(requestId, success, about) =>
        if synced {
          TakeAnswer(requestId, success, about);
        } else {
          SkimAnswer(requestId);
        }
      case UpdatedMsg =>
        synced := true;
    }
  }
}
