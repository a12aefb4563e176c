/** What the crawl finds, and that it ends. */
module CrawlerResults {
  import opened Common
  import opened Crawler
  import opened CrawlerSafety

  // ---- Reachable pages ----

  /** The page at `u` can be fetched and has a link to `v`. */
  ghost predicate IsLink(web: Web, u: Url, v: Url) {
    web(u).Some? && v in web(u).value
  }

  ghost predicate IsPath(web: Web, path: seq<Url>) {
    path != [] && (|path| == 1 || (IsPath(web, path[..|path| - 1]) && IsLink(web, path[|path| - 2], path[|path| - 1])))
  }

  /** There is a chain of links from `entry` to `u`. */
  ghost predicate Reachable(web: Web, entry: Url, u: Url) {
    exists path :: IsPath(web, path) && path[0] == entry && path[|path| - 1] == u
  }

  lemma LinksAreReachable(web: Web, entry: Url, u: Url, v: Url)
    requires Reachable(web, entry, u) && IsLink(web, u, v)
    ensures Reachable(web, entry, v)
  {
    var path :| IsPath(web, path) && path[0] == entry && path[|path| - 1] == u;
    assert (path + [v])[..|path|] == path;
    assert IsPath(web, path + [v]);
  }

  lemma {:induction false} ClosedSetHoldsPaths(web: Web, found: set<Url>, path: seq<Url>)
    requires forall u, v :: u in found && IsLink(web, u, v) ==> v in found
    requires IsPath(web, path) && path[0] in found
    ensures path[|path| - 1] in found
    decreases |path|
  {
    if 1 < |path| {
      ClosedSetHoldsPaths(web, found, path[..|path| - 1]);
    }
  }

  // ---- Nothing but reachable pages is taken up ----

  ghost predicate WorkerKnown(web: Web, entry: Url, worker: Worker) {
    worker.Working? ==>
      Reachable(web, entry, worker.url) && forall v :: v in worker.links ==> IsLink(web, worker.url, v)
  }

  ghost predicate Known(web: Web, entry: Url, s: State) {
    && (forall u :: u in s.pendings ==> Reachable(web, entry, u))
    && (forall u :: u in s.waitDoing ==> Reachable(web, entry, u))
    && (forall evt :: evt in s.evts ==> Reachable(web, entry, evt.url))
    && (s.coordinator.Sending? ==> Reachable(web, entry, s.coordinator.url))
    && (forall worker :: worker in s.workers ==> WorkerKnown(web, entry, worker))
  }

  lemma EmitKeepsKnown(web: Web, entry: Url, s: State, w: nat)
    requires Known(web, entry, s) && Enabled(s, Emit(w))
    ensures Known(web, entry, DoEmit(s, w))
  {
    var s', job := DoEmit(s, w), s.workers[w];
    assert WorkerKnown(web, entry, job);
    if job.links != [] {
      LinksAreReachable(web, entry, job.url, job.links[0]);
    }
    assert forall worker :: worker in s'.workers ==> worker in s.workers || worker == s'.workers[w];
    assert forall evt :: evt in s'.evts ==> evt in s.evts || evt == s'.evts[|s.evts|];
  }

  lemma StepKeepsKnown(web: Web, limit: int32, entry: Url, s: State, step: Step)
    requires Known(web, entry, s) && Enabled(s, step)
    ensures Known(web, entry, Do(web, limit, s, step))
  {
    var s' := Do(web, limit, s, step);
    match step
    case Receive => assert s.evts[0] in s.evts;
    case Send =>
    case Take(w) =>
      assert s.waitDoing[0] in s.waitDoing;
      assert forall worker :: worker in s'.workers ==> worker in s.workers || worker == s'.workers[w];
    case Emit(w) => EmitKeepsKnown(web, entry, s, w);
  }

  // ---- No link of a page taken up is lost, as long as there is room ----

  ghost predicate BeingEmitted(workers: seq<Worker>, u: Url, v: Url) {
    exists w :: 0 <= w < |workers| && workers[w].Working? && workers[w].url == u && v in workers[w].links
  }

  ghost predicate Handled(limit: int32, s: State, u: Url, v: Url) {
    || !Room(limit, |s.pendings|)
    || v in s.pendings || s.coordinator == Sending(v) || Open(v) in s.evts
    || u in s.waitDoing || BeingEmitted(s.workers, u, v)
  }

  ghost predicate Complete(web: Web, limit: int32, entry: Url, s: State) {
    && (entry in s.pendings || Begins(s, entry))
    && (forall u, v :: u in s.pendings && IsLink(web, u, v) ==> Handled(limit, s, u, v))
  }

  lemma ReceiveKeepsHandled(limit: int32, s: State, u: Url, v: Url)
    requires Handled(limit, s, u, v) && Enabled(s, Receive)
    ensures Handled(limit, DoReceive(limit, s), u, v)
  {
    var s' := DoReceive(limit, s);
    assert Open(v) in s.evts ==> s.evts[0] == Open(v) || Open(v) in s'.evts;
  }

  lemma SendKeepsHandled(web: Web, limit: int32, s: State, u: Url, v: Url)
    requires Handled(limit, s, u, v) && Enabled(s, Send)
    ensures Handled(limit, Do(web, limit, s, Send), u, v)
  {
    var s' := Do(web, limit, s, Send);
    assert s'.pendings == s.pendings + (s'.pendings - s.pendings);
    assert u in s.waitDoing ==> u in s'.waitDoing;
  }

  lemma TakeKeepsHandled(web: Web, limit: int32, s: State, w: nat, u: Url, v: Url)
    requires Handled(limit, s, u, v) && Enabled(s, Take(w)) && IsLink(web, u, v)
    ensures Handled(limit, Do(web, limit, s, Take(w)), u, v)
  {
    var s' := Do(web, limit, s, Take(w));
    assert u in s.waitDoing ==> u == s.waitDoing[0] || u in s'.waitDoing;
    if BeingEmitted(s.workers, u, v) {
      var x :| 0 <= x < |s.workers| && s.workers[x].Working? && s.workers[x].url == u && v in s.workers[x].links;
      assert s'.workers[x] == s.workers[x];
    }
    if u == s.waitDoing[0] {
      assert s'.workers[w] == Working(u, Links(web, u));
    }
  }

  lemma EmitKeepsHandled(limit: int32, s: State, w: nat, u: Url, v: Url)
    requires Handled(limit, s, u, v) && Enabled(s, Emit(w))
    ensures Handled(limit, DoEmit(s, w), u, v)
  {
    var s' := DoEmit(s, w);
    assert Open(v) in s.evts ==> Open(v) in s'.evts;
    if BeingEmitted(s.workers, u, v) {
      var x :| 0 <= x < |s.workers| && s.workers[x].Working? && s.workers[x].url == u && v in s.workers[x].links;
      if x == w && s.workers[w].links[0] == v {
        assert s'.evts[|s.evts|] == Open(v);
      } else {
        assert s'.workers[x].Working? && s'.workers[x].url == u && v in s'.workers[x].links;
      }
    }
  }

  lemma StepKeepsHandled(web: Web, limit: int32, s: State, step: Step, u: Url, v: Url)
    requires Handled(limit, s, u, v) && Enabled(s, step) && IsLink(web, u, v)
    ensures Handled(limit, Do(web, limit, s, step), u, v)
  {
    match step
    case Receive => ReceiveKeepsHandled(limit, s, u, v);
    case Send => SendKeepsHandled(web, limit, s, u, v);
    case Take(w) => TakeKeepsHandled(web, limit, s, w, u, v);
    case Emit(w) => EmitKeepsHandled(limit, s, w, u, v);
  }

  lemma StepKeepsEntry(web: Web, limit: int32, entry: Url, s: State, step: Step)
    requires Inv(limit, entry, s) && Enabled(s, step) && (entry in s.pendings || Begins(s, entry))
    ensures var s' := Do(web, limit, s, step); entry in s'.pendings || Begins(s', entry)
  {
    if Begins(s, entry) && step.Receive? {
      assert DoReceive(limit, s).evts == [];
    }
  }

  lemma StepKeepsComplete(web: Web, limit: int32, entry: Url, s: State, step: Step)
    requires Inv(limit, entry, s) && Complete(web, limit, entry, s) && Enabled(s, step)
    ensures Complete(web, limit, entry, Do(web, limit, s, step))
  {
    var s' := Do(web, limit, s, step);
    StepKeepsEntry(web, limit, entry, s, step);
    forall u, v | u in s'.pendings && IsLink(web, u, v)
      ensures Handled(limit, s', u, v)
    {
      if u in s.pendings {
        StepKeepsHandled(web, limit, s, step, u, v);
      } else {
        assert s'.waitDoing[|s.waitDoing|] == u;
      }
    }
  }

  lemma {:induction false} RunKeepsAll(web: Web, limit: int32, entry: Url, s: State, steps: seq<Step>)
    requires Inv(limit, entry, s) && Known(web, entry, s) && Complete(web, limit, entry, s)
             && EnabledRun(web, limit, s, steps)
    ensures var s' := Run(web, limit, s, steps);
            Inv(limit, entry, s') && Known(web, entry, s') && Complete(web, limit, entry, s')
    decreases |steps|
  {
    if steps != [] {
      StepKeepsInv(web, limit, entry, s, steps[0]);
      StepKeepsKnown(web, limit, entry, s, steps[0]);
      StepKeepsComplete(web, limit, entry, s, steps[0]);
      RunKeepsAll(web, limit, entry, Do(web, limit, s, steps[0]), steps[1..]);
    }
  }

  lemma StartIsKnown(web: Web, limit: int32, entry: Url, processorCount: nat)
    ensures var s := Start(entry, processorCount);
            Inv(limit, entry, s) && Known(web, entry, s) && Complete(web, limit, entry, s)
  {
    StartIsOk(limit, entry, processorCount);
    assert IsPath(web, [entry]);
  }

  /** With nothing left to do and room for more, the links of every page taken up have been taken up. */
  lemma NothingIsMissing(web: Web, limit: int32, entry: Url, s: State, u: Url)
    requires Complete(web, limit, entry, s) && entry in s.pendings && Quiet(s) && s.coordinator == Closed
    requires Room(limit, |s.pendings|) && Reachable(web, entry, u)
    ensures u in s.pendings
  {
    assert forall v, w :: v in s.pendings && IsLink(web, v, w) ==> Handled(limit, s, v, w) && w in s.pendings;
    var path :| IsPath(web, path) && path[0] == entry && path[|path| - 1] == u;
    ClosedSetHoldsPaths(web, s.pendings, path);
  }

  lemma ReachedIsKnown(web: Web, limit: int32, entry: Url, processorCount: nat, s: State)
    requires Reached(web, limit, entry, processorCount, s)
    ensures Inv(limit, entry, s) && Known(web, entry, s) && Complete(web, limit, entry, s)
  {
    var steps :| EnabledRun(web, limit, Start(entry, processorCount), steps)
      && Run(web, limit, Start(entry, processorCount), steps) == s;
    StartIsKnown(web, limit, entry, processorCount);
    RunKeepsAll(web, limit, entry, Start(entry, processorCount), steps);
  }

  /** Every page taken up is reachable from the entry, and at most `limit` are unless it is 0. Once
      closed, every reachable page has been taken up, unless the limit was hit. */
  lemma TheCrawlIsTheReachableSet(web: Web, limit: int32, entry: Url, processorCount: nat, s: State)
    requires Reached(web, limit, entry, processorCount, s)
    ensures forall u :: u in s.pendings ==> Reachable(web, entry, u)
    ensures limit != 0 ==> |s.pendings| <= Unsigned(limit)
    ensures s.coordinator == Closed && (limit == 0 || |s.pendings| < Unsigned(limit)) ==>
              forall u :: u in s.pendings <==> Reachable(web, entry, u)
  {
    ReachedIsKnown(web, limit, entry, processorCount, s);
    if s.coordinator == Closed && Room(limit, |s.pendings|) {
      ClosedMeansFinished(web, limit, entry, processorCount, s);
      forall u | Reachable(web, entry, u) {
        NothingIsMissing(web, limit, entry, s, u);
      }
    }
  }

  // ---- The crawl ends ----

  function Work(workers: seq<Worker>): nat {
    if workers == [] then 0 else (if workers[0].Working? then 1 + |workers[0].links| else 0) + Work(workers[1..])
  }

  lemma {:induction false} EmitWorks(workers: seq<Worker>, w: nat, worker: Worker)
    requires w < |workers| && workers[w].Working?
    requires worker.Idle? || |worker.links| < |workers[w].links|
    ensures Work(workers[w := worker]) < Work(workers)
  {
    if w == 0 {
      assert workers[0 := worker][1..] == workers[1..];
    } else {
      assert workers[w := worker][1..] == workers[1..][w - 1 := worker];
      EmitWorks(workers[1..], w - 1, worker);
    }
  }

  /** Where step number `n` of a schedule finds the crawl. */
  ghost function At(web: Web, limit: int32, s: State, schedule: nat -> Step, n: nat): State {
    if n == 0 then s
    else
      var t := At(web, limit, s, schedule, n - 1);
      if Enabled(t, schedule(n - 1)) then Do(web, limit, t, schedule(n - 1)) else t
  }

  /** `world` holds the entry and every page its members link to. */
  ghost predicate IsWorld(web: Web, entry: Url, world: set<Url>) {
    entry in world && forall u, v :: u in world && IsLink(web, u, v) ==> v in world
  }

  function Bound(limit: int32, world: set<Url>): nat {
    if limit != 0 then Unsigned(limit) else |world|
  }

  lemma PendingsAreBounded(web: Web, limit: int32, entry: Url, world: set<Url>, s: State)
    requires Inv(limit, entry, s) && Known(web, entry, s) && (limit != 0 || IsWorld(web, entry, world))
    ensures |s.pendings| <= Bound(limit, world)
  {
    if limit == 0 {
      forall u | u in s.pendings
        ensures u in world
      {
        var path :| IsPath(web, path) && path[0] == entry && path[|path| - 1] == u;
        ClosedSetHoldsPaths(web, world, path);
      }
      assert world == s.pendings + (world - s.pendings);
    }
  }

  /** What is still to be done gets less, in the lexicographic order: room for new pages, pages
      waiting, links to emit, events to read. */
  ghost predicate Less(s: State, s': State) {
    || |s.pendings| < |s'.pendings|
    || (s'.pendings == s.pendings &&
        (|s'.waitDoing| < |s.waitDoing|
         || (s'.waitDoing == s.waitDoing &&
             (Work(s'.workers) < Work(s.workers)
              || (s'.workers == s.workers && |s'.evts| < |s.evts|)))))
  }

  lemma StepDoesWork(web: Web, limit: int32, entry: Url, s: State, step: Step)
    requires Inv(limit, entry, s) && Enabled(s, step)
    ensures Less(s, Do(web, limit, s, step))
  {
    var s' := Do(web, limit, s, step);
    match step
    case Receive => assert s'.workers == s.workers && |s'.evts| == |s.evts| - 1;
    case Send => assert |s'.pendings| == |s.pendings| + 1;
    case Take(_) => assert s'.pendings == s.pendings && |s'.waitDoing| == |s.waitDoing| - 1;
    case Emit(w) => EmitWorks(s.workers, w, s'.workers[w]);
  }

  lemma StepKeepsBounded(web: Web, limit: int32, entry: Url, world: set<Url>, s: State, step: Step)
    requires Inv(limit, entry, s) && Known(web, entry, s) && Enabled(s, step)
             && (limit != 0 || IsWorld(web, entry, world))
    ensures var s' := Do(web, limit, s, step);
            Inv(limit, entry, s') && Known(web, entry, s') && Less(s, s')
            && |s.pendings| <= Bound(limit, world) && |s'.pendings| <= Bound(limit, world)
  {
    StepKeepsInv(web, limit, entry, s, step);
    StepKeepsKnown(web, limit, entry, s, step);
    StepDoesWork(web, limit, entry, s, step);
    PendingsAreBounded(web, limit, entry, world, s);
    PendingsAreBounded(web, limit, entry, world, Do(web, limit, s, step));
  }

  lemma {:induction false} ScheduleCloses(web: Web, limit: int32, entry: Url, world: set<Url>, s: State,
                                          schedule: nat -> Step, n: nat, t: State)
    requires limit != 0 || IsWorld(web, entry, world)
    requires forall k: nat :: At(web, limit, s, schedule, k).coordinator != Closed ==>
             Enabled(At(web, limit, s, schedule, k), schedule(k))
    requires t == At(web, limit, s, schedule, n) && Inv(limit, entry, t) && Known(web, entry, t)
    ensures exists k: nat :: At(web, limit, s, schedule, k).coordinator == Closed
    decreases Bound(limit, world) - |t.pendings|, |t.waitDoing|, Work(t.workers), |t.evts|
  {
    if t.coordinator != Closed {
      StepKeepsBounded(web, limit, entry, world, t, schedule(n));
      ScheduleCloses(web, limit, entry, world, s, schedule, n + 1, Do(web, limit, t, schedule(n)));
    }
  }

  /** With a limit or finitely many pages to find, every schedule that always lets someone
      move ends with the channels closed. */
  lemma EveryScheduleCloses(web: Web, limit: int32, entry: Url, processorCount: nat, world: set<Url>,
                            schedule: nat -> Step)
    requires limit != 0 || IsWorld(web, entry, world)
    requires var s := Start(entry, processorCount);
             forall k: nat :: At(web, limit, s, schedule, k).coordinator != Closed ==>
               Enabled(At(web, limit, s, schedule, k), schedule(k))
    ensures exists k: nat :: At(web, limit, Start(entry, processorCount), schedule, k).coordinator == Closed
  {
    StartIsKnown(web, limit, entry, processorCount);
    ScheduleCloses(web, limit, entry, world, Start(entry, processorCount), schedule, 0, Start(entry, processorCount));
  }

  // ---- Pages are fetched in the order in which they are taken up ----

  /** The pages fetched followed by those waiting: it only grows, and only at its end. */
  function Order(s: State): seq<Url> {
    s.fetched + s.waitDoing
  }

  lemma StepKeepsOrder(web: Web, limit: int32, s: State, step: Step)
    requires Enabled(s, step)
    ensures Order(s) <= Order(Do(web, limit, s, step))
  {
    if step.Take? {
      assert s.fetched + s.waitDoing == s.fetched + [s.waitDoing[0]] + s.waitDoing[1..];
    }
  }

  /** Nobody overtakes: what is fetched or waiting keeps its place in every run that follows. */
  lemma {:induction false} FirstInFirstOut(web: Web, limit: int32, s: State, steps: seq<Step>)
    requires EnabledRun(web, limit, s, steps)
    ensures Order(s) <= Order(Run(web, limit, s, steps))
    decreases |steps|
  {
    if steps != [] {
      StepKeepsOrder(web, limit, s, steps[0]);
      FirstInFirstOut(web, limit, Do(web, limit, s, steps[0]), steps[1..]);
    }
  }
}
