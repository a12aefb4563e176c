/** File ids from a shared atomic counter, and block ids packed from a file id and an index.
    64-bit words are bit vectors; `now` is the clock in seconds. */
module IdGenerator {
  import opened Common

  const MAX_SEQ: bv64 := 0x3FF
  const MAX_BLOCK_INDEX: bv64 := 0x1F_FFFF
  const SIGN: bv64 := 0x8000_0000_0000_0000

  // ---- Packing ----

  function TickFromSeconds(now: bv64): bv64 {
    now & 0x1_FFFF_FFFF
  }

  /** An arithmetic shift of a signed word. */
  function TickFromId(id: bv64): bv64 {
    if id & SIGN == 0 then id >> 31 else (id >> 31) | 0xFFFF_FFFE_0000_0000
  }

  function SeqFromId(id: bv64): bv64 {
    id & 0x3FF
  }

  function BuildFileId(tick: bv64, seqNo: bv64): bv64 {
    ((tick & 0x1_FFFF_FFFF) << 31) | (seqNo & 0x3FF)
  }

  function BlockId(fileId: bv64, index: bv64): bv64 {
    fileId | ((index & 0x1F_FFFF) << 10)
  }

  function FileIdFromBlock(blockId: bv64): bv64 {
    blockId & 0xFFFF_FFFF_8000_03FF
  }

  function IndexFromBlock(blockId: bv64): bv64 {
    (blockId >> 10) & 0x1F_FFFF
  }

  /** Signed comparison. */
  predicate Less(a: bv64, b: bv64) {
    a ^ SIGN < b ^ SIGN
  }

  // ---- One turn of the retry loop ----

  /** None: the sequence numbers of this second are used up, so the thread sleeps and tries again. */
  function NextId(id: bv64, now: bv64): Option<bv64> {
    var seqNo := SeqFromId(id) + 1;
    if Less(TickFromId(id), TickFromSeconds(now)) then Some(BuildFileId(TickFromSeconds(now), 0))
    else if seqNo >= MAX_SEQ then None
    else Some(BuildFileId(TickFromId(id), seqNo))
  }

  class Generator {
    var id: bv64

    constructor ()
      ensures id == 0
    {
      id := 0;
    }

    method Load(now: bv64) returns (seen: bv64, next: Option<bv64>)
      ensures seen == id && next == NextId(id, now)
    {
      seen := id;
      next := None;
      if Less(TickFromId(seen), TickFromSeconds(now)) {
        next := Some(BuildFileId(TickFromSeconds(now), 0));
      } else if SeqFromId(seen) + 1 < MAX_SEQ {
        next := Some(BuildFileId(TickFromId(seen), SeqFromId(seen) + 1));
      }
    }

    /** A weak compare-and-exchange: it may fail without reason. */
    method CompareExchange(seen: bv64, next: bv64, spurious: bool) returns (swapped: bool)
      modifies this
      ensures swapped == (!spurious && old(id) == seen) && id == if swapped then next else old(id)
    {
      swapped := !spurious && id == seen;
      if swapped {
        id := next;
      }
    }
  }

  // ---- All threads ----

  /** Between its load and its exchange a thread holds the id it saw and the one it built. */
  datatype Thread = Outside | Holding(seen: bv64, next: bv64)

  /** `returned` lists the ids handed out, in order. */
  datatype State = State(id: bv64, threads: map<int, Thread>, returned: seq<bv64>)

  datatype Step = Load(t: int, now: bv64) | Exchange(t: int, spurious: bool)

  function Do(s: State, step: Step): State {
    match step
    case Load(t, now) =>
      var next := NextId(s.id, now);
      if t !in s.threads || s.threads[t].Holding? || next.None? then s
      else s.(threads := s.threads[t := Holding(s.id, next.value)])
    case Exchange(t, spurious) =>
      if t !in s.threads || s.threads[t].Outside? then s
      else
        var h, left := s.threads[t], s.threads[t := Outside];
        if spurious || s.id != h.seen then s.(threads := left) else State(h.next, left, s.returned + [h.next])
  }

  function Run(s: State, steps: seq<Step>): State
    decreases |steps|
  {
    if steps == [] then s else Run(Do(s, steps[0]), steps[1..])
  }

  function Start(threads: set<int>): State {
    State(0, map t | t in threads :: Outside, [])
  }

  /** Until the year 2106 the seconds fit 32 bits; of a later reading the 33rd bit counts. */
  predicate InRange(now: bv64) {
    now & 0x1_0000_0000 == 0
  }

  ghost predicate ClockInRange(steps: seq<Step>) {
    forall step :: step in steps && step.Load? ==> InRange(step.now)
  }

  /** An id is not negative and has nothing between sequence number and tick. */
  predicate IsId(id: bv64) {
    id & 0x8000_0000_7FFF_FC00 == 0
  }

  lemma ClockAheadIsLess(id: bv64, now: bv64)
    requires IsId(id) && id >> 31 < now & 0x1_FFFF_FFFF
    ensures NextId(id, now) == Some(BuildFileId(TickFromSeconds(now), 0))
  {
    assert Less(TickFromId(id), TickFromSeconds(now));
  }

  lemma ClockBuilt(now: bv64)
    ensures BuildFileId(TickFromSeconds(now), 0) >> 31 == now & 0x1_FFFF_FFFF
    ensures BuildFileId(TickFromSeconds(now), 0) & 0x3FF == 0
  {
  }

  lemma BuiltIsLargerIff(id: bv64, now: bv64)
    requires IsId(id) && id >> 31 < now & 0x1_FFFF_FFFF
    ensures Less(id, BuildFileId(TickFromSeconds(now), 0)) && IsId(BuildFileId(TickFromSeconds(now), 0)) <==>
              InRange(now)
  {
  }

  lemma NumberedIsLarger(id: bv64, now: bv64)
    requires IsId(id) && NextId(id, now).Some? && now & 0x1_FFFF_FFFF <= id >> 31
    ensures Less(id, NextId(id, now).value) && IsId(NextId(id, now).value)
  {
  }

  /** The id built is larger than the one seen, exactly if the clock is not ahead of it by too much. */
  lemma NextIsLargerIff(id: bv64, now: bv64)
    requires IsId(id) && NextId(id, now).Some?
    ensures Less(id, NextId(id, now).value) && IsId(NextId(id, now).value) <==>
              now & 0x1_FFFF_FFFF <= id >> 31 || InRange(now)
  {
    if id >> 31 < now & 0x1_FFFF_FFFF {
      ClockAheadIsLess(id, now);
      BuiltIsLargerIff(id, now);
    } else {
      NumberedIsLarger(id, now);
    }
  }

  lemma StampedWithTheClock(id: bv64, now: bv64)
    requires IsId(id) && id >> 31 < now & 0x1_FFFF_FFFF
    ensures NextId(id, now).Some? && NextId(id, now).value >> 31 == now & 0x1_FFFF_FFFF
    ensures NextId(id, now).value & 0x3FF == 0
  {
    ClockAheadIsLess(id, now);
    ClockBuilt(now);
  }

  lemma NumberedOn(id: bv64, now: bv64)
    requires IsId(id) && now & 0x1_FFFF_FFFF <= id >> 31
    ensures NextId(id, now).None? <==> 0x3FE <= id & 0x3FF
    ensures NextId(id, now).Some? ==>
              NextId(id, now).value >> 31 == id >> 31 && NextId(id, now).value & 0x3FF == (id & 0x3FF) + 1
  {
  }

  /** An id is stamped with the clock and numbered 0 if the clock has moved on; if not, it keeps the
      stamp of the id seen and gets the next number, and there is none exactly if 1023 are used up. */
  lemma NextIsStamped(id: bv64, now: bv64)
    requires IsId(id)
    ensures id >> 31 < now & 0x1_FFFF_FFFF ==>
              && NextId(id, now).Some?
              && NextId(id, now).value >> 31 == now & 0x1_FFFF_FFFF && NextId(id, now).value & 0x3FF == 0
    ensures now & 0x1_FFFF_FFFF <= id >> 31 ==>
              && (NextId(id, now).None? <==> 0x3FE <= id & 0x3FF)
              && (NextId(id, now).Some? ==>
                    NextId(id, now).value >> 31 == id >> 31 && NextId(id, now).value & 0x3FF == (id & 0x3FF) + 1)
  {
    if id >> 31 < now & 0x1_FFFF_FFFF {
      StampedWithTheClock(id, now);
    } else {
      NumberedOn(id, now);
    }
  }

  ghost predicate Ascending(ids: seq<bv64>) {
    forall i, j :: 0 <= i < j < |ids| ==> Less(ids[i], ids[j])
  }

  ghost predicate Inv(s: State) {
    && IsId(s.id) && Ascending(s.returned)
    && (forall i :: 0 <= i < |s.returned| ==> s.returned[i] == s.id || Less(s.returned[i], s.id))
    && (forall t :: t in s.threads && s.threads[t].Holding? ==>
        Less(s.threads[t].seen, s.threads[t].next) && IsId(s.threads[t].next))
  }

  lemma LessIsTransitive(a: bv64, b: bv64, c: bv64)
    requires (a == b || Less(a, b)) && Less(b, c)
    ensures Less(a, c)
  {
  }

  lemma StepKeepsInv(s: State, step: Step)
    requires Inv(s) && (step.Load? ==> InRange(step.now))
    ensures Inv(Do(s, step))
  {
    match step
    case Load(t, now) =>
      if NextId(s.id, now).Some? {
        NextIsLargerIff(s.id, now);
      }
    case Exchange(t, spurious) =>
      if t in s.threads && s.threads[t].Holding? && !spurious && s.id == s.threads[t].seen {
        var s' := Do(s, step);
        forall i | 0 <= i < |s.returned|
          ensures Less(s.returned[i], s'.id)
        {
          LessIsTransitive(s.returned[i], s.id, s'.id);
        }
      }
  }

  lemma {:induction false} RunKeepsInv(s: State, steps: seq<Step>)
    requires Inv(s) && ClockInRange(steps)
    ensures Inv(Run(s, steps))
    decreases |steps|
  {
    if steps != [] {
      assert steps[0] in steps;
      StepKeepsInv(s, steps[0]);
      RunKeepsInv(Do(s, steps[0]), steps[1..]);
    }
  }

  lemma LessIsNotEqual(a: bv64, b: bv64)
    requires Less(a, b)
    ensures a != b
  {
  }

  /** However the threads interleave, exchanges fail and the clock jumps, the ids handed out strictly
      increase, so none is handed out twice, and none is negative. */
  lemma IdsIncrease(threads: set<int>, steps: seq<Step>)
    requires ClockInRange(steps)
    ensures var ids := Run(Start(threads), steps).returned;
            && Ascending(ids) && (forall i, j :: 0 <= i < j < |ids| ==> ids[i] != ids[j])
  {
    var ids := Run(Start(threads), steps).returned;
    RunKeepsInv(Start(threads), steps);
    forall i, j | 0 <= i < j < |ids|
      ensures ids[i] != ids[j]
    {
      LessIsNotEqual(ids[i], ids[j]);
    }
  }

  lemma NegativeRestarts(now: bv64)
    requires !InRange(now)
    ensures var next := BuildFileId(TickFromSeconds(now), 0);
            NextId(0, now) == Some(next) && NextId(next, now) == Some(next)
  {
    var tick := TickFromSeconds(now);
    var next := BuildFileId(tick, 0);
    assert tick & 0x1_0000_0000 != 0 && tick <= 0x1_FFFF_FFFF;
    assert next & SIGN != 0;
    assert Less(TickFromId(next), tick);
  }

  lemma OneTurn(s: State, now: bv64, next: bv64)
    requires s.threads == map[1 := Outside] && NextId(s.id, now) == Some(next)
    ensures Run(s, [Load(1, now), Exchange(1, false)]) == State(next, s.threads, s.returned + [next])
  {
    var steps := [Load(1, now), Exchange(1, false)];
    var s1 := Do(s, Load(1, now));
    assert steps[1..] == [Exchange(1, false)] && steps[1..][1..] == [];
    assert s1.threads[1 := Outside] == s.threads;
    assert Run(s1, steps[1..]) == Do(s1, Exchange(1, false));
  }

  /** And for every clock reading out of that range there is a run that hands out one id twice. */
  lemma LateClockRepeatsAnId(now: bv64)
    requires !InRange(now)
    ensures exists id, steps :: Run(Start({1}), steps).returned == [id, id]
  {
    NegativeRestarts(now);
    var id := BuildFileId(TickFromSeconds(now), 0);
    var turn := [Load(1, now), Exchange(1, false)];
    assert Start({1}).threads == map[1 := Outside];
    OneTurn(Start({1}), now, id);
    OneTurn(Run(Start({1}), turn), now, id);
    RunInTwo(Start({1}), turn, turn);
    assert [] + [id] + [id] == [id, id];
    assert Run(Start({1}), turn + turn).returned == [id, id];
  }

  lemma {:induction false} RunInTwo(s: State, a: seq<Step>, b: seq<Step>)
    ensures Run(s, a + b) == Run(Run(s, a), b)
    decreases |a|
  {
    if a == [] {
      assert a + b == b;
    } else {
      assert (a + b)[0] == a[0] && (a + b)[1..] == a[1..] + b;
      RunInTwo(Do(s, a[0]), a[1..], b);
    }
  }

  // ---- Block ids ----

  /** The ids of files leave the bits of the index clear. */
  predicate LeavesRoom(fileId: bv64) {
    fileId & 0x7FFF_FC00 == 0
  }

  lemma BuiltIdsLeaveRoom(tick: bv64, seqNo: bv64)
    ensures LeavesRoom(BuildFileId(tick, seqNo))
  {
  }

  /** Both parts of a block id are got back exactly if they fit. */
  lemma UnpackIsExactIff(fileId: bv64, index: bv64)
    ensures FileIdFromBlock(BlockId(fileId, index)) == fileId <==> LeavesRoom(fileId)
    ensures LeavesRoom(fileId) ==> (IndexFromBlock(BlockId(fileId, index)) == index <==> index <= MAX_BLOCK_INDEX)
  {
  }

  lemma BlockIdsDiffer(f: bv64, i: bv64, g: bv64, j: bv64)
    requires LeavesRoom(f) && LeavesRoom(g) && i <= MAX_BLOCK_INDEX && j <= MAX_BLOCK_INDEX
    requires BlockId(f, i) == BlockId(g, j)
    ensures f == g && i == j
  {
    UnpackIsExactIff(f, i);
    UnpackIsExactIff(g, j);
  }

  lemma NextLeavesRoom(id: bv64, now: bv64)
    ensures NextId(id, now).Some? ==> LeavesRoom(NextId(id, now).value)
  {
    BuiltIdsLeaveRoom(TickFromSeconds(now), 0);
    BuiltIdsLeaveRoom(TickFromId(id), SeqFromId(id) + 1);
  }

  ghost predicate AllLeaveRoom(s: State) {
    && LeavesRoom(s.id) && (forall i :: 0 <= i < |s.returned| ==> LeavesRoom(s.returned[i]))
    && forall t :: t in s.threads && s.threads[t].Holding? ==> LeavesRoom(s.threads[t].next)
  }

  lemma StepLeavesRoom(s: State, step: Step)
    requires AllLeaveRoom(s)
    ensures AllLeaveRoom(Do(s, step))
  {
    if step.Load? {
      NextLeavesRoom(s.id, step.now);
    }
  }

  lemma {:induction false} HeldIdsLeaveRoom(s: State, steps: seq<Step>)
    requires AllLeaveRoom(s)
    ensures AllLeaveRoom(Run(s, steps))
    decreases |steps|
  {
    if steps != [] {
      StepLeavesRoom(s, steps[0]);
      HeldIdsLeaveRoom(Do(s, steps[0]), steps[1..]);
    }
  }

  /** No two blocks of files created in one run have the same id. */
  lemma BlocksOfGeneratedFilesDiffer(threads: set<int>, steps: seq<Step>, m: nat, i: bv64, n: nat, j: bv64)
    requires ClockInRange(steps) && i <= MAX_BLOCK_INDEX && j <= MAX_BLOCK_INDEX
    requires var ids := Run(Start(threads), steps).returned;
             m < |ids| && n < |ids| && BlockId(ids[m], i) == BlockId(ids[n], j)
    ensures m == n && i == j
  {
    var ids := Run(Start(threads), steps).returned;
    IdsIncrease(threads, steps);
    HeldIdsLeaveRoom(Start(threads), steps);
    BlockIdsDiffer(ids[m], i, ids[n], j);
  }
}
