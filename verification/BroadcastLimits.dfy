/** What the term's environment has to provide, and what happens when it does not. */
module BroadcastLimits {
  import opened Common
  import opened BroadcastSpec
  import opened Broadcast
  import opened BroadcastTerm
  import opened BroadcastResults
  import D = DataSetSpec

  // ---- A leftover bill ----

  /** A leader that starts its term with an uncommitted bill in its data set throws on the first
      request, and only then. */
  lemma FirstRequestThrowsIff<S>(m: D.Machine<S>, l: Lead<S>, id: int, requestId: int, data: string, disk: set<int>)
    requires l.uncommit == []
    ensures Propose(m, l, id, requestId, data, disk).throws == l.throws + 1 <==> l.ds.uncommit != []
    ensures l.ds.uncommit == [] ==> Propose(m, l, id, requestId, data, disk).throws == l.throws
  {
    LaunchThrowsIff(m, Enqueue(l, id, requestId, data), disk);
  }

  /** A follower takes a proposal and its commit without throwing exactly if it had no other bill
      left over in front of it. */
  lemma FollowerThrowsIff<S>(m: D.Machine<S>, f: Follow<S>, zxId: int, data: string, nextCount: nat)
    requires !f.threw
    ensures var (f1, _) := FollowReceive(m, f, ProposeMsg(zxId, data), nextCount);
            var (f2, _) := FollowReceive(m, f1, CommitMsg(zxId), nextCount);
            f2.threw <==> f.ds.uncommit != [] && f.ds.uncommit[0].zxId != zxId
  {
  }

  // ---- Runs: three servers, leader 1 ----

  const LOGGER: D.Machine<string> := D.Machine((s, d) => s + d, (s, d) => s, (s, d) => d != "bad")

  const A: D.Bill := D.Bill(ZxId(1, 1), "a")
  const C: D.Bill := D.Bill(ZxId(1, 3), "c")

  function Data(uncommit: seq<D.Bill>): D.DataSet<string> {
    D.DataSet([], uncommit, 0, "", 100)
  }

  const DATA_A: D.DataSet<string> := D.DataSet([A], [], A.zxId, "a", 100)

  function Leader(nextId: int, uncommit: seq<Draft>, two: Option<seq<Down>>, three: Option<seq<Down>>,
                  bills: seq<D.Bill>): Lead<string>
  {
    BroadcastSpec.Lead(1, 1, nextId, uncommit, map[], 1, [None, two, three], Data(bills), [], [], [], 0, None)
  }

  function Server(synced: bool, joined: bool, session: nat, bills: seq<D.Bill>, up: seq<Up>): Peer<string> {
    Peer(Follow(Data(bills), map[], 1, synced, [], [], false, false), joined, session, up, [], [], [])
  }

  const NEW: Peer<string> := Server(false, false, 0, [], [])
  const JOINED: Peer<string> := Server(false, true, 1, [], [])
  const SYNCED: Peer<string> := Server(true, true, 1, [], [])

  const START: Sys<string> := ThreeServers("")

  /** It holds the start and what every allowed step leads to. */
  ghost predicate Closed(all: iset<Sys<string>>) {
    START in all && forall s, step :: s in all && Allowed(s, step) ==> Do(LOGGER, s, step) in all
  }

  ghost predicate Happens(s: Sys<string>) {
    forall all :: Closed(all) ==> s in all
  }

  lemma Then(s: Sys<string>, step: Step) returns (s': Sys<string>)
    requires Happens(s) && Allowed(s, step)
    ensures Happens(s') && s' == Do(LOGGER, s, step)
  {
    s' := Do(LOGGER, s, step);
  }

  ghost predicate Arrives(steps: seq<Step>, s: Sys<string>) {
    AllowedRun(LOGGER, START, steps) && Run(LOGGER, START, steps) == s
  }

  ghost predicate CanArrive(s: Sys<string>) {
    exists steps :: Arrives(steps, s)
  }

  lemma ArrivesThen(s: Sys<string>, step: Step)
    requires CanArrive(s) && Allowed(s, step)
    ensures CanArrive(Do(LOGGER, s, step))
  {
    var steps :| Arrives(steps, s);
    RunThen(LOGGER, START, steps, step);
    assert Arrives(steps + [step], Do(LOGGER, s, step));
  }

  lemma ArrivalsAreClosed(all: iset<Sys<string>>)
    requires forall s :: s in all <==> CanArrive(s)
    ensures Closed(all)
  {
    assert Arrives([], START);
    forall s, step | s in all && Allowed(s, step)
      ensures Do(LOGGER, s, step) in all
    {
      ArrivesThen(s, step);
    }
  }

  lemma HappensIsReachable(s: Sys<string>)
    requires Happens(s)
    ensures Reachable(LOGGER, "", START, s)
  {
    var all := iset s | CanArrive(s);
    ArrivalsAreClosed(all);
    assert CanArrive(s);
    var steps :| Arrives(steps, s);
    ThreeServersStart(LOGGER, "");
  }

  function Empty<S>(init: S): D.DataSet<S> {
    D.DataSet([], [], 0, init, 100)
  }

  function NewLeader<S>(init: S): Lead<S> {
    BroadcastSpec.Lead(1, 1, 1, [], map[], 1, [None, None, None], Empty(init), [], [], [], 0, None)
  }

  function NewServer<S>(init: S): Peer<S> {
    Peer(Follow(Empty(init), map[], 1, false, [], [], false, false), false, 0, [], [], [], [])
  }

  function ThreeServers<S>(init: S): Sys<S> {
    Sys(NewLeader(init), map[2 := NewServer(init), 3 := NewServer(init)], [])
  }

  lemma NewServerIsNew<S>(m: D.Machine<S>, init: S)
    ensures LeadLog(m, init, NewLeader(init)) && IsNew(m, init, NewLeader(init), NewServer(init))
  {
    assert LogOk(m, init, Empty(init), []);
  }

  /** With empty logs three servers can start. */
  lemma ThreeServersStart<S>(m: D.Machine<S>, init: S)
    ensures Starts(m, init, ThreeServers(init))
  {
    var s := ThreeServers(init);
    assert Shape(s);
    assert forall i :: i in s.peers ==> s.peers[i] == NewServer(init);
    NewServerIsNew(m, init);
  }

  lemma TheStart()
    ensures Happens(START)
  {
  }

  lemma TwoPeers<P>(two: P, three: P, p: P)
    ensures map[2 := two, 3 := three][2 := p] == map[2 := p, 3 := three]
    ensures map[2 := two, 3 := three][3 := p] == map[2 := two, 3 := p]
  {
  }

  lemma ThreeLinks<L>(links: seq<L>, l: L)
    requires |links| == 3
    ensures links[1 := l] == [links[0], l, links[2]] && links[2 := l] == [links[0], links[1], l]
  {
  }

  /** Server 2 reads the next message. */
  lemma TwoReadsNext(s: Sys<string>, two: Peer<string>, three: Peer<string>, f: Follow<string>, up: seq<Up>,
                     rest: seq<Down>)
      returns (s': Sys<string>)
    requires Happens(s) && s.peers == map[2 := two, 3 := three] && two.joined && !two.f.astray
    requires |s.lead.links| == 3 && s.lead.links[1].Some? && s.lead.links[1].value != []
    requires rest == s.lead.links[1].value[1..]
    requires var r := FollowReceive(LOGGER, two.f, s.lead.links[1].value[0], 0); r.0 == f && two.up + r.1 == up
    ensures Happens(s')
    ensures s' == Sys(s.lead.(links := [s.lead.links[0], Some(rest), s.lead.links[2]]),
                      map[2 := two.(f := f, up := up), 3 := three], s.drafted)
  {
    TwoPeers(two, three, two.(f := f, up := up));
    ThreeLinks(s.lead.links, Some(rest));
    s' := Then(s, FollowReads(2, 0));
  }

  lemma ThreeReadsNext(s: Sys<string>, two: Peer<string>, three: Peer<string>, f: Follow<string>, up: seq<Up>,
                       rest: seq<Down>)
      returns (s': Sys<string>)
    requires Happens(s) && s.peers == map[2 := two, 3 := three] && three.joined && !three.f.astray
    requires |s.lead.links| == 3 && s.lead.links[2].Some? && s.lead.links[2].value != []
    requires rest == s.lead.links[2].value[1..]
    requires var r := FollowReceive(LOGGER, three.f, s.lead.links[2].value[0], 0); r.0 == f && three.up + r.1 == up
    ensures Happens(s')
    ensures s' == Sys(s.lead.(links := [s.lead.links[0], s.lead.links[1], Some(rest)]),
                      map[2 := two, 3 := three.(f := f, up := up)], s.drafted)
  {
    TwoPeers(two, three, three.(f := f, up := up));
    ThreeLinks(s.lead.links, Some(rest));
    s' := Then(s, FollowReads(3, 0));
  }

  lemma AckIsHandled<S>(m: D.Machine<S>, s: Sys<S>, id: int, zxId: int, disk: set<int>)
    requires Connected(s, id) && s.peers[id].up == [AckProposeMsg(zxId)]
    ensures var l, peers := AckPropose(m, s.lead, id, zxId, 0, disk), s.peers[id := s.peers[id].(up := [])];
            Do(m, s, LeadReads(id, 0, disk)) ==
              if l.throws == s.lead.throws then s.(lead := l, peers := peers)
              else Cut(s.(lead := l, peers := peers), id)
  {
    assert [AckProposeMsg(zxId)][1..] == [];
    LeadReadsIs(m, s, id, 0, disk, Taken(s, id).(lead := AckPropose(m, s.lead, id, zxId, 0, disk)));
  }

  /** The leader handles server 3's only message, an acknowledgement. */
  lemma HearsThree(s: Sys<string>, two: Peer<string>, three: Peer<string>, zxId: int, disk: set<int>, l': Lead<string>)
      returns (s': Sys<string>)
    requires Happens(s) && s.peers == map[2 := two, 3 := three] && three.joined && three.up == [AckProposeMsg(zxId)]
    requires AckPropose(LOGGER, s.lead, 3, zxId, 0, disk) == l'
    ensures Happens(s')
    ensures var s1 := s.(lead := l', peers := map[2 := two, 3 := three.(up := [])]);
            s' == if l'.throws == s.lead.throws then s1 else Cut(s1, 3)
  {
    AckIsHandled(LOGGER, s, 3, zxId, disk);
    TwoPeers(two, three, three.(up := []));
    s' := Then(s, LeadReads(3, 0, disk));
  }

  lemma FollowersJoin() returns (s: Sys<string>)
    ensures Happens(s)
    ensures s == Sys(Leader(1, [], Some([]), Some([]), []), map[2 := JOINED, 3 := JOINED], [])
  {
    TheStart();
    s := Then(START, Join(2));
    assert s == Sys(Leader(1, [], Some([]), None, []), map[2 := JOINED, 3 := NEW], []);
    s := Then(s, Join(3));
  }

  lemma FollowersAreUpdated() returns (s: Sys<string>)
    ensures Happens(s)
    ensures s == Sys(Leader(1, [], Some([UpdatedMsg]), Some([UpdatedMsg]), []), map[2 := JOINED, 3 := JOINED], [])
  {
    s := FollowersJoin();
    assert [] + [UpdatedMsg] == [UpdatedMsg];
    s := Then(s, Update(2));
    s := Then(s, Update(3));
    assert s.lead.links == [None, Some([UpdatedMsg]), Some([UpdatedMsg])];
  }

  lemma TwoConnects() returns (s: Sys<string>)
    ensures Happens(s)
    ensures s == Sys(Leader(1, [], Some([]), Some([UpdatedMsg]), []), map[2 := SYNCED, 3 := JOINED], [])
  {
    s := FollowersAreUpdated();
    assert [UpdatedMsg][1..] == [];
    s := TwoReadsNext(s, JOINED, JOINED, SYNCED.f, [], []);
    assert s.peers[2].up == [] && s.lead.links == [None, Some([]), Some([UpdatedMsg])];
  }

  lemma FollowersConnect() returns (s: Sys<string>)
    ensures Happens(s)
    ensures s == Sys(Leader(1, [], Some([]), Some([]), []), map[2 := SYNCED, 3 := SYNCED], [])
  {
    s := TwoConnects();
    assert [UpdatedMsg][1..] == [];
    s := ThreeReadsNext(s, SYNCED, JOINED, SYNCED.f, [], []);
    assert s.peers[3].up == [] && s.lead.links == [None, Some([]), Some([])];
  }

  const PROPOSE_A: Down := ProposeMsg(A.zxId, "a")
  const COMMIT_A: Down := CommitMsg(A.zxId)
  const READER: Peer<string> := Server(true, true, 1, [A], [AckProposeMsg(A.zxId)])

  lemma DataOfA()
    ensures D.CommitFirst(LOGGER, Data([A]), 0) == DATA_A
  {
    assert "" + "a" == "a";
    assert [] + [A] == [A] && [A][1..] == [];
    assert D.Prune([A], 100) == [A];
  }

  lemma TwoOfThree(vote: seq<bool>)
    requires vote == [false, true, true] || vote == [true, false, true]
    ensures HasQuorum(vote)
  {
    assert vote[..2][..1][..0] == [];
    assert CountTrue(vote[..2][..1]) == if vote[0] then 1 else 0;
    assert CountTrue(vote[..2]) == 1;
  }

  // ---- Joining with a draft of an earlier session still in line ----

  // Server 2 asks to write "a", drops its connection, joins again while "a" is in line, and asks to
  // write "b": request 1 once more.

  const WITH_A: Draft := Draft(2, 1, A.zxId, "a", [false, true, false])
  const ORIGIN_A: Origin := Origin(A.zxId, 2, 1, 1, "a")
  const ANSWER_A: Down := RequestAckMsg(1, true, A.zxId)

  lemma LaunchesA(l: Lead<string>)
    requires l == Leader(1, [], Some([]), Some([]), [])
    ensures Propose(LOGGER, l, 2, 1, "a", {A.zxId}) == Leader(2, [WITH_A], Some([PROPOSE_A]), Some([PROPOSE_A]), [A])
  {
    var l' := Enqueue(l, 2, 1, "a");
    assert NewDraft(l, 2, 1, "a") == WITH_A && l'.uncommit == [WITH_A];
    var r := LaunchFirst(l');
    assert [] + [PROPOSE_A] == [PROPOSE_A];
    assert r.links == [None, Some([PROPOSE_A]), Some([PROPOSE_A])];
    assert [] + [A] == [A];
  }

  lemma AskForA() returns (s: Sys<string>)
    ensures Happens(s)
    ensures s.lead == Leader(2, [WITH_A], Some([PROPOSE_A]), Some([PROPOSE_A]), [A]) && s.drafted == [ORIGIN_A]
    ensures s.peers.Keys == {2, 3} && s.peers[3] == SYNCED
    ensures var p := s.peers[2];
            p.joined && p.session == 1 && p.f.ds == Data([]) && p.f.log == [] && !p.f.threw && !p.f.astray
  {
    s := FollowersConnect();
    LaunchesA(s.lead);
    s := Then(s, FollowSubmits(2, "a"));
    assert s.peers[2].up == [RequestMsg(1, "a")];
    s := Then(s, LeadReads(2, 0, {A.zxId}));
  }

  lemma Reconnect() returns (s: Sys<string>)
    ensures Happens(s)
    ensures s.lead == Leader(2, [WITH_A], Some([PROPOSE_A]), Some([PROPOSE_A]), [A]) && s.drafted == [ORIGIN_A]
    ensures s.peers == map[2 := Server(false, true, 2, [], []), 3 := SYNCED]
  {
    s := AskForA();
    s := Then(s, Leave(2));
    assert s.lead.links == [None, None, Some([PROPOSE_A])];
    assert Pending([A]) == [PROPOSE_A] by {
      assert [A][1..] == [];
    }
    s := Then(s, Join(2));
    assert s.lead.links == [None, Some([PROPOSE_A]), Some([PROPOSE_A])];
  }

  lemma ThreeReadsItA() returns (s: Sys<string>)
    ensures Happens(s)
    ensures s.lead == Leader(2, [WITH_A], Some([PROPOSE_A]), Some([]), [A])
    ensures s.peers == map[2 := Server(false, true, 2, [], []), 3 := READER]
  {
    s := Reconnect();
    assert [PROPOSE_A][1..] == [] && [] + [A] == [A];
    s := ThreeReadsNext(s, Server(false, true, 2, [], []), SYNCED, READER.f, [AckProposeMsg(A.zxId)], []);
  }

  lemma BothReadA() returns (s: Sys<string>)
    ensures Happens(s)
    ensures s.lead == Leader(2, [WITH_A], Some([]), Some([]), [A])
    ensures s.peers == map[2 := Server(false, true, 2, [A], []), 3 := READER]
  {
    s := ThreeReadsItA();
    assert [PROPOSE_A][1..] == [] && [] + [A] == [A];
    s := TwoReadsNext(s, Server(false, true, 2, [], []), READER, Server(false, true, 2, [A], []).f, [], []);
  }

  const WAITING: Follow<string> := Follow(Data([A]), map[1 := "b"], 2, true, [], [], false, false)

  lemma IsUpdated() returns (s: Sys<string>)
    ensures Happens(s)
    ensures s.lead == Leader(2, [WITH_A], Some([UpdatedMsg]), Some([]), [A])
    ensures s.peers == map[2 := Server(false, true, 2, [A], []), 3 := READER]
  {
    s := BothReadA();
    s := Then(s, Update(2));
    assert [] + [UpdatedMsg] == [UpdatedMsg];
    assert s.lead.links == [None, Some([UpdatedMsg]), Some([])];
  }

  lemma CatchUp() returns (s: Sys<string>)
    ensures Happens(s)
    ensures s.lead == Leader(2, [WITH_A], Some([]), Some([]), [A])
    ensures s.peers == map[2 := Server(true, true, 2, [A], []), 3 := READER]
  {
    s := IsUpdated();
    assert [UpdatedMsg][1..] == [];
    s := TwoReadsNext(s, Server(false, true, 2, [A], []), READER, Server(true, true, 2, [A], []).f, [], []);
  }

  const ASKS: Peer<string> := Server(true, true, 2, [A], [RequestMsg(1, "b")]).(f := WAITING)

  /** Server 3 has logged and acknowledged "a"; server 2 has caught up and asked for "b". */
  lemma AskForB() returns (s: Sys<string>)
    ensures Happens(s)
    ensures s.lead == Leader(2, [WITH_A], Some([]), Some([]), [A]) && s.peers == map[2 := ASKS, 3 := READER]
  {
    s := CatchUp();
    s := Then(s, FollowSubmits(2, "b"));
    assert [] + [RequestMsg(1, "b")] == [RequestMsg(1, "b")];
  }

  const VOTED_A: Lead<string> := Leader(2, [Draft(2, 1, A.zxId, "a", [false, true, true])], Some([]), Some([]), [A])

  const ANSWERED: Lead<string> :=
    BroadcastSpec.Lead(1, 1, 2, [], map[], 1, [None, Some([COMMIT_A, ANSWER_A]), Some([COMMIT_A])], DATA_A, [], [A],
                       [A.zxId], 0, None)

  lemma CommitsA()
    ensures CommitFirst(LOGGER, VOTED_A, 0) == ANSWERED
  {
    var links := SendAll(VOTED_A.links, COMMIT_A);
    DataOfA();
    assert [] + [COMMIT_A] == [COMMIT_A] && [] + [A] == [A] && [] + [A.zxId] == [A.zxId];
    assert links == [None, Some([COMMIT_A]), Some([COMMIT_A])];
    assert [COMMIT_A] + [ANSWER_A] == [COMMIT_A, ANSWER_A];
    assert Send(links, 2, ANSWER_A) == ANSWERED.links;
  }

  lemma AnswersA()
    ensures AckPropose(LOGGER, Leader(2, [WITH_A], Some([]), Some([]), [A]), 3, A.zxId, 0, {}) == ANSWERED
  {
    var l := Leader(2, [WITH_A], Some([]), Some([]), [A]);
    assert WITH_A.vote[2 := true] == [false, true, true];
    assert Vote(l, 3).uncommit == VOTED_A.uncommit;
    AckIs(LOGGER, l, 3, A.zxId, 0, {});
    TwoOfThree([false, true, true]);
    CommitsA();
  }

  lemma ReadsCommitA(f: Follow<string>)
    requires f == WAITING
    ensures FollowReceive(LOGGER, f, COMMIT_A, 0) == (f.(ds := DATA_A, log := [A]), [])
  {
    DataOfA();
    assert [] + [A] == [A];
  }

  const APPLIED: Follow<string> := WAITING.(ds := DATA_A, log := [A])
  const MISLED: Follow<string> := APPLIED.(callbacks := map[], calls := [Call(1, "b", true, A.zxId)])

  lemma ReadsAnswerA()
    ensures FollowReceive(LOGGER, APPLIED, ANSWER_A, 0) == (MISLED, [])
  {
    assert [] + [Call(1, "b", true, A.zxId)] == [Call(1, "b", true, A.zxId)];
    assert map[1 := "b"] - {1} == map[];
  }

  lemma CommitA() returns (s: Sys<string>)
    ensures Happens(s) && s.lead == ANSWERED && s.peers == map[2 := ASKS, 3 := READER.(up := [])]
  {
    s := AskForB();
    AnswersA();
    s := HearsThree(s, ASKS, READER, A.zxId, {}, ANSWERED);
  }

  lemma TwoAppliesA() returns (s: Sys<string>)
    ensures Happens(s) && s.lead == ANSWERED.(links := [None, Some([ANSWER_A]), Some([COMMIT_A])])
    ensures s.peers == map[2 := ASKS.(f := APPLIED), 3 := READER.(up := [])]
  {
    s := CommitA();
    ReadsCommitA(WAITING);
    assert [COMMIT_A, ANSWER_A][1..] == [ANSWER_A];
    s := TwoReadsNext(s, ASKS, READER.(up := []), APPLIED, ASKS.up, [ANSWER_A]);
  }

  /** Server 2 reads the answer meant for its first session. */
  lemma ReadsTheAnswer() returns (s: Sys<string>)
    ensures Happens(s) && s.lead == ANSWERED.(links := [None, Some([]), Some([COMMIT_A])])
    ensures s.peers == map[2 := ASKS.(f := MISLED), 3 := READER.(up := [])]
  {
    s := TwoAppliesA();
    ReadsAnswerA();
    assert [ANSWER_A][1..] == [];
    s := TwoReadsNext(s, ASKS.(f := APPLIED), READER.(up := []), MISLED, ASKS.up, []);
  }

  /** Server 2 tells its client that "b" is written; neither it nor the leader has written "b". */
  lemma EarlyRejoinAnswersFalsely()
    ensures exists s :: Reachable(LOGGER, "", START, s) && 2 in s.peers && s.lead.log == [A]
              && s.peers[2].f.calls == [Call(1, "b", true, A.zxId)] && s.peers[2].f.log == [A]
  {
    var s := ReadsTheAnswer();
    HappensIsReachable(s);
  }

  // ---- A refused draft with another one behind it ----

  // The leader's clients ask to write "a", "bad" and "c". The commit of "a" launches the next draft:
  // "bad" is refused and the lock released, "c" is logged, and releasing the lock again throws.

  const OWN_A: Draft := Draft(1, 1, A.zxId, "a", [true, false, false])
  const OWN_BAD: Draft := Draft(1, 2, ZxId(1, 2), "bad", [true, false, false])
  const OWN_C: Draft := Draft(1, 3, C.zxId, "c", [true, false, false])
  const ASKED: map<int, string> := map[1 := "a", 2 := "bad", 3 := "c"]

  function Busy(uncommit: seq<Draft>, two: seq<Down>, three: seq<Down>): Lead<string> {
    Leader(4, uncommit, Some(two), Some(three), [A]).(callbacks := ASKED, nextRequestId := 4)
  }

  const WAITING_A: Lead<string> :=
    Leader(2, [OWN_A], Some([PROPOSE_A]), Some([PROPOSE_A]), [A]).(callbacks := map[1 := "a"], nextRequestId := 2)

  lemma SubmitsA(l: Lead<string>)
    requires l == Leader(1, [], Some([]), Some([]), [])
    ensures Submit(LOGGER, l, "a", {A.zxId}) == WAITING_A
  {
    var l' := Enqueue(AddCallback(l, "a"), 1, 1, "a");
    assert NewDraft(AddCallback(l, "a"), 1, 1, "a") == OWN_A && l'.uncommit == [OWN_A];
    var r := LaunchFirst(l');
    assert [] + [PROPOSE_A] == [PROPOSE_A] && [] + [A] == [A];
    assert r.links == [None, Some([PROPOSE_A]), Some([PROPOSE_A])];
  }

  lemma SubmitsMore(l: Lead<string>)
    requires l == WAITING_A
    ensures Submit(LOGGER, Submit(LOGGER, l, "bad", {}), "c", {}) ==
            Busy([OWN_A, OWN_BAD, OWN_C], [PROPOSE_A], [PROPOSE_A])
  {
    var l1 := Submit(LOGGER, l, "bad", {});
    assert NewDraft(AddCallback(l, "bad"), 1, 2, "bad") == OWN_BAD;
    assert l1.uncommit == [OWN_A, OWN_BAD];
    assert NewDraft(AddCallback(l1, "c"), 1, 3, "c") == OWN_C;
    assert [OWN_A, OWN_BAD] + [OWN_C] == [OWN_A, OWN_BAD, OWN_C];
  }

  lemma AskForAll() returns (s: Sys<string>)
    ensures Happens(s)
    ensures s.lead == Busy([OWN_A, OWN_BAD, OWN_C], [PROPOSE_A], [PROPOSE_A])
    ensures s.peers == map[2 := SYNCED, 3 := SYNCED]
  {
    s := FollowersConnect();
    SubmitsA(s.lead);
    s := Then(s, LeadSubmit("a", {A.zxId}));
    SubmitsMore(s.lead);
    s := Then(s, LeadSubmit("bad", {}));
    s := Then(s, LeadSubmit("c", {}));
  }

  lemma ThreeReadsA() returns (s: Sys<string>)
    ensures Happens(s)
    ensures s.lead == Busy([OWN_A, OWN_BAD, OWN_C], [PROPOSE_A], []) && s.peers == map[2 := SYNCED, 3 := READER]
  {
    s := AskForAll();
    assert [PROPOSE_A][1..] == [] && [] + [A] == [A];
    s := ThreeReadsNext(s, SYNCED, SYNCED, READER.f, [AckProposeMsg(A.zxId)], []);
  }

  /** The leader after the commit of "a", before the next launch. */
  const WRITTEN_A: Lead<string> :=
    BroadcastSpec.Lead(1, 1, 4, [OWN_BAD, OWN_C], map[2 := "bad", 3 := "c"], 4,
                       [None, Some([PROPOSE_A, COMMIT_A]), Some([COMMIT_A])], DATA_A,
                       [Call(1, "a", true, A.zxId)], [A], [A.zxId], 0, None)

  lemma FirstIsAnswered()
    ensures ASKED - {1} == map[2 := "bad", 3 := "c"]
  {
  }

  lemma CommitsOwnA(l: Lead<string>)
    requires l == Busy([OWN_A.(vote := [true, false, true]), OWN_BAD, OWN_C], [PROPOSE_A], [])
    ensures CommitFirst(LOGGER, l, 0) == WRITTEN_A
  {
    assert [] + [A] == [A] && [A][1..] == [] && [] + [COMMIT_A] == [COMMIT_A];
    assert [PROPOSE_A] + [COMMIT_A] == [PROPOSE_A, COMMIT_A] && [] + [A.zxId] == [A.zxId];
    assert SendAll(l.links, COMMIT_A) == WRITTEN_A.links;
    assert l.uncommit[1..] == WRITTEN_A.uncommit;
    FirstIsAnswered();
    DataOfA();
    assert [] + [Call(1, "a", true, A.zxId)] == WRITTEN_A.calls;
  }

  function Thrown(links: seq<Option<seq<Down>>>, unsent: set<int>): Lead<string> {
    BroadcastSpec.Lead(1, 1, 4, [OWN_C], map[3 := "c"], 4, links, DATA_A.(uncommit := [C]),
                       [Call(1, "a", true, A.zxId), Call(2, "bad", false, OWN_BAD.zxId)], [A],
                       [A.zxId, OWN_BAD.zxId], 1, Some(unsent))
  }

  lemma DropsBad()
    ensures DropFirst(WRITTEN_A) ==
              Thrown(WRITTEN_A.links, {}).(ds := DATA_A, throws := 0, unsent := None)
  {
    assert [OWN_BAD, OWN_C][1..] == [OWN_C] && [A.zxId] + [OWN_BAD.zxId] == [A.zxId, OWN_BAD.zxId];
    assert map[2 := "bad", 3 := "c"] - {2} == map[3 := "c"];
    assert [Call(1, "a", true, A.zxId)] + [Call(2, "bad", false, OWN_BAD.zxId)]
        == [Call(1, "a", true, A.zxId), Call(2, "bad", false, OWN_BAD.zxId)];
  }

  lemma LaunchThrows()
    ensures LaunchNextDraft(LOGGER, WRITTEN_A, {C.zxId}, true) == Thrown(WRITTEN_A.links, {2, 3})
  {
    var l := Thrown(WRITTEN_A.links, {}).(ds := DATA_A, throws := 0, unsent := None);
    DropsBad();
    assert Refused(LOGGER, WRITTEN_A, {C.zxId}) && !Refused(LOGGER, l, {C.zxId});
    assert LaunchNextDraft(LOGGER, l, {C.zxId}, false) == Throw(LogFirst(l)).(unsent := Some(Linked(l)));
    assert [] + [C] == [C];
    assert HasLink(l.links, 2) && HasLink(l.links, 3) && !HasLink(l.links, 1);
    assert Linked(l) == {2, 3};
  }

  lemma AckThrows(l: Lead<string>)
    requires l == Busy([OWN_A, OWN_BAD, OWN_C], [PROPOSE_A], [])
    ensures AckPropose(LOGGER, l, 3, A.zxId, 0, {C.zxId}) == LaunchNextDraft(LOGGER, WRITTEN_A, {C.zxId}, true)
  {
    var voted := OWN_A.(vote := [true, false, true]);
    assert OWN_A.vote[2 := true] == [true, false, true];
    assert [OWN_A, OWN_BAD, OWN_C][0 := voted] == [voted, OWN_BAD, OWN_C];
    assert Vote(l, 3) == Busy([voted, OWN_BAD, OWN_C], [PROPOSE_A], []);
    AckIs(LOGGER, l, 3, A.zxId, 0, {C.zxId});
    TwoOfThree([true, false, true]);
    CommitsOwnA(Vote(l, 3));
  }

  const DROPPED: Peer<string> := Peer(READER.f, false, 1, [], [COMMIT_A], [A], [])

  /** The handler has thrown and its follower is dropped. */
  lemma ThreeIsDropped(s: Sys<string>)
    requires s.peers == map[2 := SYNCED, 3 := READER.(up := [])] && s.lead == Thrown(WRITTEN_A.links, {2, 3})
    ensures Cut(s, 3) == s.(lead := Thrown([None, Some([PROPOSE_A, COMMIT_A]), None], {2}),
                            peers := map[2 := SYNCED, 3 := DROPPED])
  {
    assert {2, 3} - {3} == {2};
    assert s.lead.links[2 := None] == [None, Some([PROPOSE_A, COMMIT_A]), None];
    assert Gone(s.lead, 3, READER.(up := []), LinkTo(s, 3)) == DROPPED;
  }

  lemma LeaderThrows() returns (s: Sys<string>)
    ensures Happens(s) && s.lead == Thrown([None, Some([PROPOSE_A, COMMIT_A]), None], {2})
    ensures s.peers == map[2 := SYNCED, 3 := DROPPED]
  {
    var s0 := ThreeReadsA();
    AckThrows(s0.lead);
    LaunchThrows();
    s := HearsThree(s0, SYNCED, READER, A.zxId, {C.zxId}, Thrown(WRITTEN_A.links, {2, 3}));
    ThreeIsDropped(Sys(Thrown(WRITTEN_A.links, {2, 3}), map[2 := SYNCED, 3 := READER.(up := [])], s0.drafted));
  }

  lemma TwoReadsA() returns (s: Sys<string>)
    ensures Happens(s) && s.lead == Thrown([None, Some([COMMIT_A]), None], {2})
    ensures s.peers == map[2 := READER, 3 := DROPPED]
  {
    s := LeaderThrows();
    assert [PROPOSE_A, COMMIT_A][1..] == [COMMIT_A] && [] + [A] == [A];
    s := TwoReadsNext(s, SYNCED, DROPPED, READER.f, [AckProposeMsg(A.zxId)], [COMMIT_A]);
  }

  const WROTE: Peer<string> := READER.(f := READER.f.(ds := DATA_A, log := [A]))

  lemma ReadsCommit()
    ensures FollowReceive(LOGGER, READER.f, COMMIT_A, 0) == (WROTE.f, [])
  {
    DataOfA();
    assert [] + [A] == [A];
  }

  lemma TwoHasReadAll() returns (s: Sys<string>)
    ensures Happens(s) && s.lead == Thrown([None, Some([]), None], {2}) && s.peers == map[2 := WROTE, 3 := DROPPED]
  {
    s := TwoReadsA();
    ReadsCommit();
    assert [COMMIT_A][1..] == [];
    s := TwoReadsNext(s, READER, DROPPED, WROTE.f, READER.up, []);
  }

  /** The leader has logged "c", which nobody was sent: follower 2 has read everything and does not
      have it, follower 3 has been dropped, and the term commits nothing more. */
  lemma RefusalLeavesABillUnsent()
    ensures exists s :: Reachable(LOGGER, "", START, s) && s.lead.throws == 1 && Stalled(s.lead) && s.lead.log == [A]
              && s.lead.ds.uncommit == [C] && 2 in s.peers && s.peers[2].f.log == [A] && s.peers[2].f.ds.uncommit == []
              && s.peers[2].joined && LinkTo(s, 2) == Some([]) && 3 in s.peers && !s.peers[3].joined
  {
    var s := TwoHasReadAll();
    HappensIsReachable(s);
  }
}
