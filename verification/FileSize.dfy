/** A file's recorded size: raised by compare-and-swap from any number of threads at once. */
module FileSize {
  import opened Common

  class File {
    var size: nat

    constructor ()
      ensures size == 0
    {
      size := 0;
    }

    method CompareAndSwap(expected: nat, desired: nat) returns (swapped: bool)
      modifies this
      ensures swapped == (old(size) == expected) && size == if swapped then desired else old(size)
    {
      swapped := size == expected;
      if swapped {
        size := desired;
      }
    }

    /** The loop as it runs undisturbed. */
    method UpdateSize(target: nat)
      modifies this
      ensures size == Max(old(size), target)
    {
      var seen := size;
      var swapped := false;
      while !swapped && seen < target
        invariant if swapped then size == target && old(size) < target else size == old(size) && seen == size
        decreases !swapped
      {
        swapped := CompareAndSwap(seen, target);
        if !swapped {
          seen := size;
        }
      }
    }
  }

  // ---- Any number of calls, interleaved ----

  /** About to read the size; about to swap, having read `seen`; returned. */
  datatype Stage = Reading | Swapping(seen: nat) | Returned

  datatype Call = Call(target: nat, stage: Stage)

  datatype State = State(size: nat, calls: seq<Call>)

  datatype Step = Enter(target: nat) | Move(i: nat)

  function Do(s: State, step: Step): State {
    match step
    case Enter(target) => s.(calls := s.calls + [Call(target, Reading)])
    case Move(i) =>
      if |s.calls| <= i then s
      else
        var c := s.calls[i];
        match c.stage {
          case Reading =>
            s.(calls := s.calls[i := c.(stage := if s.size < c.target then Swapping(s.size) else Returned)])
          case Swapping(seen) =>
            if s.size == seen then State(c.target, s.calls[i := c.(stage := Returned)])
            else s.(calls := s.calls[i := c.(stage := Reading)])
          case Returned => s
        }
  }

  function Run(s: State, steps: seq<Step>): State
    decreases |steps|
  {
    if steps == [] then s else Run(Do(s, steps[0]), steps[1..])
  }

  ghost predicate CallOk(size: nat, c: Call) {
    && (c.stage.Swapping? ==> c.stage.seen < c.target)
    && (c.stage.Returned? ==> c.target <= size)
  }

  ghost predicate Inv(first: nat, s: State) {
    && first <= s.size
    && (s.size == first || exists c :: c in s.calls && c.target == s.size)
    && (forall c :: c in s.calls ==> CallOk(s.size, c))
  }

  lemma MoveKeepsInv(first: nat, s: State, i: nat)
    requires Inv(first, s) && i < |s.calls|
    ensures Inv(first, Do(s, Move(i))) && s.size <= Do(s, Move(i)).size
  {
    var s', c := Do(s, Move(i)), s.calls[i];
    assert CallOk(s.size, c);
    forall d | d in s'.calls
      ensures CallOk(s'.size, d)
    {
      assert d in s.calls || d == s'.calls[i];
    }
    if s'.size != first {
      var k :| 0 <= k < |s'.calls| && (if s'.size == s.size then s.calls[k].target == s.size else k == i);
      assert s'.calls[k] in s'.calls && s'.calls[k].target == s'.size;
    }
  }

  lemma StepKeepsInv(first: nat, s: State, step: Step)
    requires Inv(first, s)
    ensures Inv(first, Do(s, step)) && s.size <= Do(s, step).size
  {
    match step
    case Enter(target) =>
      assert forall c :: c in s.calls ==> c in Do(s, step).calls;
    case Move(i) =>
      if i < |s.calls| {
        MoveKeepsInv(first, s, i);
      }
  }

  lemma {:induction false} RunKeepsInv(first: nat, s: State, steps: seq<Step>)
    requires Inv(first, s)
    ensures Inv(first, Run(s, steps)) && s.size <= Run(s, steps).size
    decreases |steps|
  {
    if steps != [] {
      StepKeepsInv(first, s, steps[0]);
      RunKeepsInv(first, Do(s, steps[0]), steps[1..]);
    }
  }

  /** However the calls interleave, the size never falls, no call returns before the size has reached
      its target, and once all have returned the size is the largest of all targets and the first. */
  lemma UpdatesTakeTheMaximum(first: nat, steps: seq<Step>, more: seq<Step>)
    ensures var s := Run(State(first, []), steps);
            && s.size <= Run(s, more).size
            && (forall c :: c in s.calls && c.stage.Returned? ==> c.target <= s.size)
            && ((forall c :: c in s.calls ==> c.stage.Returned?) ==>
                 && first <= s.size && (forall c :: c in s.calls ==> c.target <= s.size)
                 && (s.size == first || exists c :: c in s.calls && c.target == s.size))
  {
    RunKeepsInv(first, State(first, []), steps);
    RunKeepsInv(first, Run(State(first, []), steps), more);
  }
}
