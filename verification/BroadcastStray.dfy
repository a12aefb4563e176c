/** Runs in which a follower reads an answer before it is up to date, and loses its place in the
    stream. */
module BroadcastStray {
  import opened Common
  import opened BroadcastSpec
  import opened Broadcast
  import opened BroadcastTerm
  import opened BroadcastResults
  import opened BroadcastLimits
  import D = DataSetSpec

  // Server 2 asks thirteen times for what is refused and then to write "a". It drops its connection
  // and joins again while "a" is in line. The answer to request 14 comes before the server is up to
  // date, and the request number reads as the type of a commit.

  const Z: int := ZxId(1, 14)
  const BILL: D.Bill := D.Bill(Z, "a")
  const DRAFT: Draft := Draft(2, 14, Z, "a", [false, true, false])
  const PROPOSE: Down := ProposeMsg(Z, "a")
  const COMMIT: Down := CommitMsg(Z)
  const ANSWER: Down := RequestAckMsg(14, true, Z)
  const DATA: D.DataSet<string> := D.DataSet([BILL], [], Z, "a", 100)

  ghost predicate Linked3(l: Lead<string>) {
    && l.id == 1 && l.epoch == 1 && l.callbacks == map[] && l.nextRequestId == 1 && l.calls == []
    && l.throws == 0 && l.unsent.None?
    && |l.links| == 3 && l.links[0].None? && l.links[1].Some?
  }

  /** Nothing is in line. */
  ghost predicate Idle(l: Lead<string>, nextId: int) {
    Linked3(l) && l.nextId == nextId && l.uncommit == [] && l.ds == Data([]) && l.log == [] && l.links[2] == Some([])
  }

  ghost predicate Asking(s: Sys<string>, k: nat) {
    && Happens(s) && s.peers.Keys == {2, 3} && s.peers[3] == SYNCED && Idle(s.lead, k + 1)
    && var p := s.peers[2];
       && p.joined && p.session == 1 && p.up == [] && p.f.synced && !p.f.astray && !p.f.threw
       && p.f.ds == Data([]) && p.f.log == [] && p.f.nextRequestId == k + 1
  }

  lemma RefusesBad(l: Lead<string>, k: int)
    requires Idle(l, k)
    ensures var l' := Propose(LOGGER, l, 2, k, "bad", {}); Idle(l', k + 1) && l'.throws == l.throws
  {
    var l1 := Enqueue(l, 2, k, "bad");
    var l2 := DropFirst(l1);
    assert Refused(LOGGER, l1, {}) && l2.uncommit == [];
    assert LaunchNextDraft(LOGGER, l1, {}, true) == LaunchNextDraft(LOGGER, l2, {}, false) == l2;
  }

  lemma OneRefusal(s: Sys<string>, k: nat) returns (s': Sys<string>)
    requires Asking(s, k)
    ensures Asking(s', k + 1)
  {
    var s1 := Then(s, FollowSubmits(2, "bad"));
    assert s1.peers[2].up == [RequestMsg(k + 1, "bad")];
    RefusesBad(s.lead, k + 1);
    s' := Then(s1, LeadReads(2, 0, {}));
  }

  lemma {:induction false} Refusals(k: nat) returns (s: Sys<string>)
    ensures Asking(s, k)
  {
    if k == 0 {
      s := FollowersConnect();
    } else {
      s := Refusals(k - 1);
      s := OneRefusal(s, k - 1);
    }
  }

  /** The draft of request 14 is in line and sent. */
  ghost predicate InFlight(l: Lead<string>, three: seq<Down>) {
    && Linked3(l) && l.nextId == 15 && l.uncommit == [DRAFT] && l.ds == Data([BILL]) && l.log == []
    && l.links[2] == Some(three)
  }

  lemma LaunchesTheDraft(l: Lead<string>)
    requires Idle(l, 14)
    ensures var l' := Propose(LOGGER, l, 2, 14, "a", {Z}); InFlight(l', [PROPOSE]) && l'.throws == l.throws
  {
    var l1 := Enqueue(l, 2, 14, "a");
    assert NewDraft(l, 2, 14, "a") == DRAFT && l1.uncommit == [DRAFT];
    assert LaunchNextDraft(LOGGER, l1, {Z}, true) == LaunchFirst(l1);
    assert [] + [PROPOSE] == [PROPOSE] && [] + [BILL] == [BILL];
  }

  lemma RequestFourteen() returns (s: Sys<string>)
    ensures Happens(s) && s.peers.Keys == {2, 3} && s.peers[3] == SYNCED && InFlight(s.lead, [PROPOSE])
    ensures var p := s.peers[2];
            p.joined && p.session == 1 && !p.f.astray && !p.f.threw && p.f.ds == Data([]) && p.f.log == []
  {
    var s0 := Refusals(13);
    var s1 := Then(s0, FollowSubmits(2, "a"));
    assert s1.peers[2].up == [RequestMsg(14, "a")];
    LaunchesTheDraft(s0.lead);
    s := Then(s1, LeadReads(2, 0, {Z}));
  }

  function Flying(two: seq<Down>, three: seq<Down>, vote: seq<bool>, resolved: seq<int>): Lead<string> {
    BroadcastSpec.Lead(1, 1, 15, [DRAFT.(vote := vote)], map[], 1, [None, Some(two), Some(three)], Data([BILL]), [], [],
                       resolved, 0, None)
  }

  function Landed(two: seq<Down>, resolved: seq<int>): Lead<string> {
    BroadcastSpec.Lead(1, 1, 15, [], map[], 1, [None, Some(two), Some([COMMIT])], DATA, [], [BILL], resolved, 0, None)
  }

  lemma JoinsAgain() returns (s: Sys<string>)
    ensures Happens(s) && s.lead == Flying([PROPOSE], [PROPOSE], [false, true, false], s.lead.resolved)
    ensures s.peers == map[2 := Server(false, true, 2, [], []), 3 := SYNCED]
  {
    s := RequestFourteen();
    s := Then(s, Leave(2));
    assert Pending([BILL]) == [PROPOSE] by {
      assert [BILL][1..] == [];
    }
    s := Then(s, Join(2));
    assert s.lead.links == [None, Some([PROPOSE]), Some([PROPOSE])];
  }

  const HAS_READ: Peer<string> := Server(true, true, 1, [BILL], [AckProposeMsg(Z)])

  lemma ThreeAcknowledges() returns (s: Sys<string>)
    ensures Happens(s) && s.lead == Flying([PROPOSE], [], [false, true, false], s.lead.resolved)
    ensures s.peers == map[2 := Server(false, true, 2, [], []), 3 := HAS_READ]
  {
    s := JoinsAgain();
    assert [PROPOSE][1..] == [] && [] + [BILL] == [BILL];
    s := ThreeReadsNext(s, Server(false, true, 2, [], []), SYNCED, HAS_READ.f, [AckProposeMsg(Z)], []);
  }

  lemma AppliesBill()
    ensures D.CommitFirst(LOGGER, Data([BILL]), 0) == DATA
  {
    assert "" + "a" == "a";
    assert [] + [BILL] == [BILL] && [BILL][1..] == [];
    assert D.Prune([BILL], 100) == [BILL];
  }

  lemma CommitsBill(resolved: seq<int>)
    ensures CommitFirst(LOGGER, Flying([PROPOSE], [], [false, true, true], resolved), 0) ==
              Landed([PROPOSE, COMMIT, ANSWER], resolved + [Z])
  {
    var l := Flying([PROPOSE], [], [false, true, true], resolved);
    AppliesBill();
    assert [] + [COMMIT] == [COMMIT] && [PROPOSE] + [COMMIT] == [PROPOSE, COMMIT] && [] + [BILL] == [BILL];
    assert SendAll(l.links, COMMIT) == [None, Some([PROPOSE, COMMIT]), Some([COMMIT])];
    assert [PROPOSE, COMMIT] + [ANSWER] == [PROPOSE, COMMIT, ANSWER];
    assert Send(SendAll(l.links, COMMIT), 2, ANSWER) == [None, Some([PROPOSE, COMMIT, ANSWER]), Some([COMMIT])];
  }

  lemma AnswersBill(resolved: seq<int>)
    ensures AckPropose(LOGGER, Flying([PROPOSE], [], [false, true, false], resolved), 3, Z, 0, {}) ==
              Landed([PROPOSE, COMMIT, ANSWER], resolved + [Z])
  {
    var l := Flying([PROPOSE], [], [false, true, false], resolved);
    assert DRAFT.vote[2 := true] == [false, true, true];
    assert Vote(l, 3).uncommit == Flying([PROPOSE], [], [false, true, true], resolved).uncommit;
    AckIs(LOGGER, l, 3, Z, 0, {});
    TwoOfThree([false, true, true]);
    CommitsBill(resolved);
  }

  lemma LeaderAnswers() returns (s: Sys<string>)
    ensures Happens(s) && s.lead == Landed([PROPOSE, COMMIT, ANSWER], s.lead.resolved)
    ensures s.peers == map[2 := Server(false, true, 2, [], []), 3 := HAS_READ.(up := [])]
  {
    s := ThreeAcknowledges();
    AnswersBill(s.lead.resolved);
    s := HearsThree(s, Server(false, true, 2, [], []), HAS_READ, Z, {},
                    Landed([PROPOSE, COMMIT, ANSWER], s.lead.resolved + [Z]));
  }

  const LOGGED: Follow<string> := Follow(Data([BILL]), map[], 1, false, [], [], false, false)
  const APPLIED2: Follow<string> := LOGGED.(ds := DATA, log := [BILL])
  const LOST: Peer<string> := Server(false, true, 2, [], []).(f := APPLIED2.(astray := true))

  lemma TwoReads()
    ensures FollowReceive(LOGGER, Server(false, true, 2, [], []).f, PROPOSE, 0) == (LOGGED, [])
    ensures FollowReceive(LOGGER, LOGGED, COMMIT, 0) == (APPLIED2, [])
    ensures FollowReceive(LOGGER, APPLIED2, ANSWER, 0) == (LOST.f, [])
  {
    AppliesBill();
    SmallNumbers(14);
    assert [] + [BILL] == [BILL];
  }

  lemma TwoHasLogged() returns (s: Sys<string>)
    ensures Happens(s) && s.lead == Landed([COMMIT, ANSWER], s.lead.resolved)
    ensures s.peers == map[2 := Server(false, true, 2, [], []).(f := LOGGED), 3 := HAS_READ.(up := [])]
  {
    s := LeaderAnswers();
    TwoReads();
    assert [PROPOSE, COMMIT, ANSWER][1..] == [COMMIT, ANSWER];
    s := TwoReadsNext(s, Server(false, true, 2, [], []), HAS_READ.(up := []), LOGGED, [], [COMMIT, ANSWER]);
  }

  lemma TwoHasApplied() returns (s: Sys<string>)
    ensures Happens(s) && s.lead == Landed([ANSWER], s.lead.resolved)
    ensures s.peers == map[2 := Server(false, true, 2, [], []).(f := APPLIED2), 3 := HAS_READ.(up := [])]
  {
    s := TwoHasLogged();
    TwoReads();
    assert [COMMIT, ANSWER][1..] == [ANSWER];
    s := TwoReadsNext(s, Server(false, true, 2, [], []).(f := LOGGED), HAS_READ.(up := []), APPLIED2, [], [ANSWER]);
  }

  lemma TwoIsLost() returns (s: Sys<string>)
    ensures Happens(s) && s.lead == Landed([], s.lead.resolved) && s.peers == map[2 := LOST, 3 := HAS_READ.(up := [])]
  {
    s := TwoHasApplied();
    TwoReads();
    assert [ANSWER][1..] == [];
    s := TwoReadsNext(s, Server(false, true, 2, [], []).(f := APPLIED2), HAS_READ.(up := []), LOST.f, [], []);
  }

  // The eight bytes that follow are the rest of the request number, all 0, and the answer's 1: the id
  // of a bill that no server has.
  const NO_BILL: int := 0x100_0000_0000_0000

  lemma TwoThrows() returns (s: Sys<string>)
    ensures Happens(s) && 2 in s.peers && s.peers[2].joined && s.peers[2].f.astray && s.peers[2].f.threw
  {
    s := TwoIsLost();
    assert D.Commit(LOGGER, DATA, NO_BILL, 0).None?;
    s := Then(s, ReadsAstray(2, CommitMsg(NO_BILL), 0));
  }

  /** After fourteen requests and an early join, server 2 loses its place in the stream and throws. */
  lemma FourteenthAnswerIsMisread()
    ensures exists s :: Reachable(LOGGER, "", START, s) && 2 in s.peers && s.peers[2].joined
                        && s.peers[2].f.astray && s.peers[2].f.threw
  {
    var s := TwoThrows();
    HappensIsReachable(s);
  }

  // ---- Why such a server must not be listened to ----

  const NEXT: D.Bill := D.Bill(ZxId(1, 15), "c")
  const OWN: Draft := Draft(1, 1, NEXT.zxId, "c", [true, false, false])
  const PROPOSE_NEXT: Down := ProposeMsg(NEXT.zxId, "c")

  function Submitted(vote: seq<bool>, resolved: seq<int>): Lead<string> {
    BroadcastSpec.Lead(1, 1, 16, [OWN.(vote := vote)], map[1 := "c"], 2,
                       [None, Some([PROPOSE_NEXT]), Some([COMMIT, PROPOSE_NEXT])], DATA.(uncommit := [NEXT]), [],
                       [BILL], resolved, 0, None)
  }

  lemma SubmitsNext(resolved: seq<int>)
    ensures Submit(LOGGER, Landed([], resolved), "c", {NEXT.zxId}) == Submitted([true, false, false], resolved)
  {
    var l := AddCallback(Landed([], resolved), "c");
    var l' := Enqueue(l, 1, 1, "c");
    assert NewDraft(l, 1, 1, "c") == OWN && l'.uncommit == [OWN];
    assert [] + [PROPOSE_NEXT] == [PROPOSE_NEXT] && [COMMIT] + [PROPOSE_NEXT] == [COMMIT, PROPOSE_NEXT];
    assert LaunchFirst(l').links == [None, Some([PROPOSE_NEXT]), Some([COMMIT, PROPOSE_NEXT])];
    assert [] + [NEXT] == [NEXT];
  }

  lemma LeaderAsks() returns (s: Sys<string>)
    ensures Happens(s) && s.lead == Submitted([true, false, false], s.lead.resolved)
    ensures s.peers == map[2 := LOST, 3 := HAS_READ.(up := [])]
  {
    s := TwoIsLost();
    SubmitsNext(s.lead.resolved);
    s := Then(s, LeadSubmit("c", {NEXT.zxId}));
  }

  const HEARD: Peer<string> := LOST.(f := LOST.f.(synced := true))
  const PRETENDS: Peer<string> :=
    HEARD.(f := HEARD.f.(ds := DATA.(uncommit := [D.Bill(NEXT.zxId, "x")])), up := [AckProposeMsg(NEXT.zxId)])

  lemma TwoIsUpdated() returns (s: Sys<string>)
    ensures Happens(s) && s.lead == Submitted([true, false, false], s.lead.resolved)
    ensures s.peers == map[2 := HEARD, 3 := HAS_READ.(up := [])]
  {
    s := LeaderAsks();
    s := Then(s, ReadsAstray(2, UpdatedMsg, 0));
    assert s.peers[2].up == [];
  }

  lemma TwoPretends(s: Sys<string>)
    requires s.peers == map[2 := HEARD, 3 := HAS_READ.(up := [])]
    ensures Do(LOGGER, s, ReadsAstray(2, ProposeMsg(NEXT.zxId, "x"), 0)) == s.(peers := s.peers[2 := PRETENDS])
  {
    assert [] + [D.Bill(NEXT.zxId, "x")] == [D.Bill(NEXT.zxId, "x")];
    assert [] + [AckProposeMsg(NEXT.zxId)] == [AckProposeMsg(NEXT.zxId)];
  }

  lemma CommitsNext(resolved: seq<int>)
    ensures var l := AckPropose(LOGGER, Submitted([true, false, false], resolved), 2, NEXT.zxId, 0, {});
            l.log == [BILL, NEXT] && l.id == 1 && l.throws == 0 && |l.links| == 3
  {
    var l := Submitted([true, false, false], resolved);
    assert OWN.vote[1 := true] == [true, true, false];
    assert Vote(l, 2).uncommit == Submitted([true, true, false], resolved).uncommit;
    AckIs(LOGGER, l, 2, NEXT.zxId, 0, {});
    assert HasQuorum([true, true, false]) by {
      assert [true, true, false][..2] == [true, true] && [true, true][..1] == [true] && [true][..0] == [];
    }
    assert [BILL] + [NEXT] == [BILL, NEXT];
    var l' := CommitFirst(LOGGER, Vote(l, 2), 0);
    assert l'.uncommit == [] && LaunchNextDraft(LOGGER, l', {}, true) == l';
  }

  lemma HearsTwo(s: Sys<string>)
    requires s.lead == Submitted([true, false, false], s.lead.resolved)
    requires s.peers == map[2 := PRETENDS, 3 := HAS_READ.(up := [])]
    ensures Do(LOGGER, s, LeadReads(2, 0, {})).lead.log == [BILL, NEXT]
  {
    var l := AckPropose(LOGGER, s.lead, 2, NEXT.zxId, 0, {});
    CommitsNext(s.lead.resolved);
    AckIsHandled(LOGGER, s, 2, NEXT.zxId, {});
  }

  /** If server 2 acknowledges what it takes for the leader's proposal, a bill is committed that only
      the leader holds. */
  lemma StrayAcknowledgementBreaksTheMajority()
    ensures exists s :: Reachable(LOGGER, "", START, s) && 2 in s.peers && s.peers[2].f.astray && s.lead.log == [BILL]
              && Do(LOGGER, Do(LOGGER, s, ReadsAstray(2, ProposeMsg(NEXT.zxId, "x"), 0)), LeadReads(2, 0, {})).lead.log
                   == [BILL, NEXT]
              && Holders(s, NEXT) == {1} && |s.lead.links| == 3
  {
    var s := TwoIsUpdated();
    TwoPretends(s);
    HearsTwo(s.(peers := s.peers[2 := PRETENDS]));
    assert s.peers[2 := PRETENDS] == map[2 := PRETENDS, 3 := HAS_READ.(up := [])];
    assert Holders(s, NEXT) == {1} by {
      assert !HeldBy(s, 2, NEXT) && !HeldBy(s, 3, NEXT) && HeldBy(s, 1, NEXT);
    }
    HappensIsReachable(s);
  }

  // ---- Which request numbers are misread ----

  /** The lowest `k` bytes of `n`, lowest first. */
  function LowBytes(n: int, k: nat): (bytes: seq<int>)
    ensures |bytes| == k
    decreases k
  {
    if k == 0 then [] else [n % 256] + LowBytes(n / 256, k - 1)
  }

  /** Byte `i` is taken for the type of a longer message: a proposal or a commit, or an answer if a byte
      before it has been taken for the end of the synchronisation. */
  ghost predicate StartsMessage(bytes: seq<int>, i: nat, updated: bool)
    requires i < |bytes|
  {
    bytes[i] == 12 || bytes[i] == 14 || (bytes[i] == 11 && (updated || 7 in bytes[..i]))
  }

  lemma StartsLater(bytes: seq<int>, i: nat, updated: bool)
    requires 0 < i < |bytes|
    ensures StartsMessage(bytes, i, updated) <==> StartsMessage(bytes[1..], i - 1, updated || bytes[0] == 7)
  {
    assert bytes[..i] == [bytes[0]] + bytes[1..][..i - 1];
  }

  ghost predicate SomeStarts(bytes: seq<int>, updated: bool) {
    exists i :: 0 <= i < |bytes| && StartsMessage(bytes, i, updated)
  }

  lemma SomeStartsIff(bytes: seq<int>, updated: bool)
    requires bytes != []
    ensures SomeStarts(bytes, updated) <==>
              bytes[0] in {12, 14} || (bytes[0] == 11 && updated) || SomeStarts(bytes[1..], updated || bytes[0] == 7)
    ensures 7 in bytes <==> bytes[0] == 7 || 7 in bytes[1..]
  {
    assert bytes == [bytes[0]] + bytes[1..] && bytes[..0] == [];
    assert StartsMessage(bytes, 0, updated) <==> bytes[0] in {12, 14} || (bytes[0] == 11 && updated);
    forall i: nat | 0 < i < |bytes| {
      StartsLater(bytes, i, updated);
    }
    if SomeStarts(bytes[1..], updated || bytes[0] == 7) {
      var i :| 0 <= i < |bytes| - 1 && StartsMessage(bytes[1..], i, updated || bytes[0] == 7);
      assert StartsMessage(bytes, i + 1, updated);
    }
  }

  lemma {:induction false} SkimBytesIff(n: int, k: nat, updated: bool)
    ensures var bytes := LowBytes(n, k);
            && (SkimBytes(n, k, updated) == TakenForMessage <==> SomeStarts(bytes, updated))
            && (SkimBytes(n, k, updated) == TakenForUpdated <==> !SomeStarts(bytes, updated) && (updated || 7 in bytes))
    decreases k
  {
    if 0 < k {
      SomeStartsIff(LowBytes(n, k), updated);
      assert LowBytes(n, k)[1..] == LowBytes(n / 256, k - 1);
      SkimBytesIff(n / 256, k - 1, updated || n % 256 == PX_UPDATED);
    }
  }

  /** An early answer makes a follower lose its place exactly if one of the eight bytes of its request
      number is 12 or 14, or is 11 and comes after a 7; of the others, it is taken for the end of the
      synchronisation exactly if one of them is 7. */
  lemma MisreadNumbersIff(requestId: int)
    ensures var bytes := LowBytes(requestId, 8);
            && (Skim(requestId) == TakenForMessage <==>
                 exists i :: 0 <= i < 8 && (bytes[i] in {12, 14} || (bytes[i] == 11 && 7 in bytes[..i])))
            && (Skim(requestId) != TakenForMessage ==> (Skim(requestId) == TakenForUpdated <==> 7 in bytes))
  {
    var bytes := LowBytes(requestId, 8);
    SkimBytesIff(requestId, 8, false);
    forall i | 0 <= i < 8
      ensures StartsMessage(bytes, i, false) <==> bytes[i] in {12, 14} || (bytes[i] == 11 && 7 in bytes[..i])
    {
    }
  }

  /** That is all an early answer does: no client is told, and nothing is logged or sent. */
  lemma EarlyAnswerIs<S>(m: D.Machine<S>, f: Follow<S>, requestId: int, success: bool, about: int, nextCount: nat)
    requires !f.synced && !f.astray
    ensures var (f', ups) := FollowReceive(m, f, RequestAckMsg(requestId, success, about), nextCount);
            var bytes := LowBytes(requestId, 8);
            && f' == f.(synced := f'.synced, astray := f'.astray) && ups == []
            && (f'.astray <==>
                 exists i :: 0 <= i < 8 && (bytes[i] in {12, 14} || (bytes[i] == 11 && 7 in bytes[..i])))
            && (f'.synced <==> !f'.astray && 7 in bytes)
  {
    MisreadNumbersIff(requestId);
  }
}
