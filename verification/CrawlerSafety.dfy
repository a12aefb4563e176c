/** The crawl stops exactly when nothing is left to do, having fetched each page it found once. */
module CrawlerSafety {
  import opened Common
  import opened Crawler

  // ---- Counting ----

  function Count<T>(xs: seq<T>, p: T -> bool): nat {
    if xs == [] then 0 else (if p(xs[0]) then 1 else 0) + Count(xs[1..], p)
  }

  lemma {:induction false} CountThen<T>(xs: seq<T>, x: T, p: T -> bool)
    ensures Count(xs + [x], p) == Count(xs, p) + if p(x) then 1 else 0
  {
    if xs == [] {
      assert [] + [x] == [x] && [x][1..] == [];
    } else {
      assert (xs + [x])[1..] == xs[1..] + [x];
      CountThen(xs[1..], x, p);
    }
  }

  lemma {:induction false} CountSet<T>(xs: seq<T>, i: nat, x: T, p: T -> bool)
    requires i < |xs|
    ensures Count(xs[i := x], p) + (if p(xs[i]) then 1 else 0) == Count(xs, p) + if p(x) then 1 else 0
  {
    if i == 0 {
      assert xs[0 := x][1..] == xs[1..];
    } else {
      assert xs[i := x][1..] == xs[1..][i - 1 := x];
      CountSet(xs[1..], i - 1, x, p);
    }
  }

  lemma {:induction false} CountIsZero<T>(xs: seq<T>, p: T -> bool)
    ensures Count(xs, p) == 0 <==> forall i :: 0 <= i < |xs| ==> !p(xs[i])
  {
    if xs != [] {
      CountIsZero(xs[1..], p);
      assert forall i :: 1 <= i < |xs| ==> xs[i] == xs[1..][i - 1];
    }
  }

  function Is(u: Url): Url -> bool {
    x => x == u
  }

  function IsDone(u: Url): Event -> bool {
    (evt: Event) => evt == Done(u)
  }

  function IsOn(u: Url): Worker -> bool {
    (worker: Worker) => worker.Working? && worker.url == u
  }

  lemma {:induction false} CountIsMultiplicity(urls: seq<Url>, u: Url)
    ensures Count(urls, Is(u)) == multiset(urls)[u]
  {
    if urls != [] {
      CountIsMultiplicity(urls[1..], u);
      assert urls == [urls[0]] + urls[1..];
    }
  }

  // ---- Invariant ----

  ghost predicate AnyWorking(workers: seq<Worker>) {
    exists w :: 0 <= w < |workers| && workers[w].Working?
  }

  ghost predicate DoneAfter(evts: seq<Event>, i: int) {
    exists j :: i < j < |evts| && 0 <= j && evts[j].Done?
  }

  /** Behind every URL offered, the page it was found on is still to be reported done. */
  ghost predicate Backed(s: State) {
    forall i :: 0 <= i < |s.evts| && s.evts[i].Open? ==> AnyWorking(s.workers) || DoneAfter(s.evts, i)
  }

  ghost predicate Begins(s: State, entry: Url) {
    s.pendings == {} && s.dones == {} && s.waitDoing == [] && !AnyWorking(s.workers)
    && ((s.coordinator == Receiving && s.evts == [Open(entry)]) || (s.coordinator == Sending(entry) && s.evts == []))
  }

  /** Times `u` has left the work channel: it is being worked on, reported done, or known done. */
  function Left(s: State, u: Url): nat {
    Count(s.workers, IsOn(u)) + Count(s.evts, IsDone(u)) + if u in s.dones then 1 else 0
  }

  /** A pending URL is in exactly one place, and has been fetched once it has left the work channel. */
  ghost predicate TrackedUrl(s: State, u: Url) {
    && Count(s.waitDoing, Is(u)) + Left(s, u) == (if u in s.pendings then 1 else 0)
    && Count(s.fetched, Is(u)) == Left(s, u)
  }

  ghost predicate Tracked(s: State) {
    forall u :: TrackedUrl(s, u)
  }

  /** The limit as an unsigned 64-bit number. */
  function Unsigned(limit: int32): nat {
    limit % 0x1_0000_0000_0000_0000
  }

  ghost predicate Inv(limit: int32, entry: Url, s: State) {
    && Tracked(s)
    && (Begins(s, entry) || (Backed(s) && s.pendings != {}))
    && (s.coordinator.Sending? ==> s.coordinator.url !in s.pendings && Room(limit, |s.pendings|))
    && (limit != 0 ==> |s.pendings| <= Unsigned(limit))
    && (s.coordinator == Receiving && s.pendings != {} ==> s.dones != s.pendings)
    && (s.coordinator == Closed ==> s.dones == s.pendings && s.pendings != {})
  }

  lemma DonesArePending(s: State)
    requires Tracked(s)
    ensures s.dones <= s.pendings
  {
    assert forall u :: u in s.dones ==> TrackedUrl(s, u);
  }

  lemma SameSizeIsSame(a: set<Url>, b: set<Url>)
    requires a <= b
    ensures |a| == |b| <==> a == b
  {
    assert b == a + (b - a);
    assert |b - a| == 0 <==> b - a == {};
  }

  lemma ReceiveKeepsTracked(limit: int32, s: State)
    requires Tracked(s) && Enabled(s, Receive)
    ensures Tracked(DoReceive(limit, s))
    ensures s.evts[0].Done? ==> s.evts[0].url in s.pendings && s.evts[0].url !in s.dones
  {
    forall u
      ensures TrackedUrl(DoReceive(limit, s), u)
      ensures s.evts[0] == Done(u) ==> u in s.pendings && u !in s.dones
    {
      assert TrackedUrl(s, u);
    }
  }

  lemma ReceiveKeepsBacked(limit: int32, s: State)
    requires Backed(s) && Enabled(s, Receive)
    ensures Backed(DoReceive(limit, s))
  {
    var s' := DoReceive(limit, s);
    forall i | 0 <= i < |s'.evts| && s'.evts[i].Open?
      ensures AnyWorking(s'.workers) || DoneAfter(s'.evts, i)
    {
      assert s.evts[i + 1] == s'.evts[i];
      if !AnyWorking(s.workers) {
        var j :| i + 1 < j < |s.evts| && s.evts[j].Done?;
        assert s'.evts[j - 1].Done?;
      }
    }
  }

  lemma ReceiveKeepsInv(limit: int32, entry: Url, s: State)
    requires Inv(limit, entry, s) && Enabled(s, Receive)
    ensures Inv(limit, entry, DoReceive(limit, s))
  {
    var s' := DoReceive(limit, s);
    ReceiveKeepsTracked(limit, s);
    if Begins(s, entry) {
      assert s'.evts == [];
    } else {
      ReceiveKeepsBacked(limit, s);
      if s.evts[0].Done? {
        DonesArePending(s');
        SameSizeIsSame(s'.dones, s'.pendings);
      }
    }
  }

  lemma SendKeepsTracked(web: Web, limit: int32, s: State)
    requires Tracked(s) && Enabled(s, Send) && s.coordinator.url !in s.pendings
    ensures Tracked(Do(web, limit, s, Send))
  {
    forall u
      ensures TrackedUrl(Do(web, limit, s, Send), u)
    {
      assert TrackedUrl(s, u);
      CountThen(s.waitDoing, s.coordinator.url, Is(u));
    }
  }

  lemma SendKeepsInv(web: Web, limit: int32, entry: Url, s: State)
    requires Inv(limit, entry, s) && Enabled(s, Send)
    ensures Inv(limit, entry, Do(web, limit, s, Send))
  {
    SendKeepsTracked(web, limit, s);
    DonesArePending(s);
    assert s.coordinator.url in Do(web, limit, s, Send).pendings;
  }

  lemma TakeKeepsTracked(web: Web, limit: int32, s: State, w: nat)
    requires Tracked(s) && Enabled(s, Take(w))
    ensures Tracked(Do(web, limit, s, Take(w)))
  {
    var taken := s.waitDoing[0];
    forall u
      ensures TrackedUrl(Do(web, limit, s, Take(w)), u)
    {
      assert TrackedUrl(s, u);
      CountSet(s.workers, w, Working(taken, Links(web, taken)), IsOn(u));
      CountThen(s.fetched, taken, Is(u));
    }
  }

  lemma TakeKeepsInv(web: Web, limit: int32, entry: Url, s: State, w: nat)
    requires Inv(limit, entry, s) && Enabled(s, Take(w))
    ensures Inv(limit, entry, Do(web, limit, s, Take(w)))
  {
    TakeKeepsTracked(web, limit, s, w);
    assert Do(web, limit, s, Take(w)).workers[w].Working?;
  }

  lemma EmitKeepsBacked(s: State, w: nat)
    requires Backed(s) && Enabled(s, Emit(w))
    ensures Backed(DoEmit(s, w))
  {
    var s' := DoEmit(s, w);
    if s.workers[w].links != [] {
      assert s'.workers[w].Working?;
    } else {
      assert s'.evts[|s.evts|].Done?;
    }
  }

  lemma EmitKeepsTracked(s: State, w: nat)
    requires Tracked(s) && Enabled(s, Emit(w))
    ensures Tracked(DoEmit(s, w))
  {
    var s' := DoEmit(s, w);
    forall u
      ensures TrackedUrl(s', u)
    {
      assert TrackedUrl(s, u);
      CountSet(s.workers, w, s'.workers[w], IsOn(u));
      CountThen(s.evts, s'.evts[|s.evts|], IsDone(u));
    }
  }

  lemma EmitKeepsInv(limit: int32, entry: Url, s: State, w: nat)
    requires Inv(limit, entry, s) && Enabled(s, Emit(w))
    ensures Inv(limit, entry, DoEmit(s, w))
  {
    EmitKeepsTracked(s, w);
    assert AnyWorking(s.workers);
    EmitKeepsBacked(s, w);
  }

  lemma StepKeepsInv(web: Web, limit: int32, entry: Url, s: State, step: Step)
    requires Inv(limit, entry, s) && Enabled(s, step)
    ensures Inv(limit, entry, Do(web, limit, s, step))
  {
    match step
    case Receive => ReceiveKeepsInv(limit, entry, s);
    case Send => SendKeepsInv(web, limit, entry, s);
    case Take(w) => TakeKeepsInv(web, limit, entry, s, w);
    case Emit(w) => EmitKeepsInv(limit, entry, s, w);
  }

  lemma StartIsOk(limit: int32, entry: Url, processorCount: nat)
    ensures Inv(limit, entry, Start(entry, processorCount))
  {
    var s := Start(entry, processorCount);
    forall u
      ensures TrackedUrl(s, u)
    {
      CountIsZero(s.workers, IsOn(u));
      CountIsZero(s.evts, IsDone(u));
    }
  }

  lemma {:induction false} RunKeepsInv(web: Web, limit: int32, entry: Url, s: State, steps: seq<Step>)
    requires Inv(limit, entry, s) && EnabledRun(web, limit, s, steps)
    ensures Inv(limit, entry, Run(web, limit, s, steps))
    decreases |steps|
  {
    if steps != [] {
      StepKeepsInv(web, limit, entry, s, steps[0]);
      RunKeepsInv(web, limit, entry, Do(web, limit, s, steps[0]), steps[1..]);
    }
  }

  lemma ReachedIsOk(web: Web, limit: int32, entry: Url, processorCount: nat, s: State)
    requires Reached(web, limit, entry, processorCount, s)
    ensures Inv(limit, entry, s)
  {
    StartIsOk(limit, entry, processorCount);
    var steps :| EnabledRun(web, limit, Start(entry, processorCount), steps)
      && Run(web, limit, Start(entry, processorCount), steps) == s;
    RunKeepsInv(web, limit, entry, Start(entry, processorCount), steps);
  }

  // ---- Main results ----

  predicate Quiet(s: State) {
    s.evts == [] && s.waitDoing == [] && forall w :: 0 <= w < |s.workers| ==> s.workers[w].Idle?
  }

  lemma DoneLeavesNothing(s: State)
    requires Tracked(s) && s.dones == s.pendings
    ensures s.waitDoing == [] && !AnyWorking(s.workers) && forall i :: 0 <= i < |s.evts| ==> s.evts[i].Open?
  {
    forall u
      ensures Count(s.waitDoing, Is(u)) == 0 && Count(s.workers, IsOn(u)) == 0 && Count(s.evts, IsDone(u)) == 0
    {
      assert TrackedUrl(s, u);
    }
    if s.waitDoing != [] {
      CountIsZero(s.waitDoing, Is(s.waitDoing[0]));
    }
    forall w | 0 <= w < |s.workers| && s.workers[w].Working?
      ensures false
    {
      CountIsZero(s.workers, IsOn(s.workers[w].url));
    }
    forall i | 0 <= i < |s.evts| && s.evts[i].Done?
      ensures false
    {
      CountIsZero(s.evts, IsDone(s.evts[i].url));
    }
  }

  /** When the channels are closed nothing is left in them, nobody is working, and every URL that
      was taken up has been fetched exactly once and reported done. */
  lemma ClosedMeansFinished(web: Web, limit: int32, entry: Url, processorCount: nat, s: State)
    requires Reached(web, limit, entry, processorCount, s) && s.coordinator == Closed
    ensures Quiet(s) && s.dones == s.pendings
    ensures forall u :: multiset(s.fetched)[u] == if u in s.pendings then 1 else 0
  {
    ReachedIsOk(web, limit, entry, processorCount, s);
    DoneLeavesNothing(s);
    assert !Begins(s, entry);
    assert s.evts != [] ==> s.evts[0].Open? && !DoneAfter(s.evts, 0);
    forall u
      ensures multiset(s.fetched)[u] == if u in s.pendings then 1 else 0
    {
      assert TrackedUrl(s, u);
      CountIsMultiplicity(s.fetched, u);
    }
  }

  /** The other half: with a worker to do the work, the crawl never gets stuck before it closes. */
  lemma OpenMeansSomeoneCanMove(web: Web, limit: int32, entry: Url, processorCount: nat, s: State) returns (step: Step)
    requires Reached(web, limit, entry, processorCount, s) && s.coordinator != Closed && s.workers != []
    ensures Enabled(s, step)
  {
    ReachedIsOk(web, limit, entry, processorCount, s);
    step := SomeStep(limit, entry, s);
  }

  lemma QuietMeansDone(s: State)
    requires Tracked(s) && s.waitDoing == [] && s.evts == [] && !AnyWorking(s.workers)
    ensures s.dones == s.pendings
  {
    forall u
      ensures u in s.dones <==> u in s.pendings
    {
      assert TrackedUrl(s, u);
      CountIsZero(s.workers, IsOn(u));
    }
  }

  lemma SomeStep(limit: int32, entry: Url, s: State) returns (step: Step)
    requires Inv(limit, entry, s) && s.coordinator != Closed && s.workers != []
    ensures Enabled(s, step)
  {
    if w :| 0 <= w < |s.workers| && s.workers[w].Working? {
      step := Emit(w);
    } else if s.waitDoing != [] {
      step := Take(0);
    } else if s.coordinator.Sending? {
      step := Send;
    } else {
      if s.evts == [] {
        QuietMeansDone(s);
      }
      step := Receive;
    }
  }
}
