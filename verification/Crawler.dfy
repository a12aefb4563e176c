/** The crawler: one coordinator and some workers, joined by an unbounded event channel and a bounded
    work channel. A step is what one of them does between two channel operations. */
module Crawler {
  import opened Common

  type Url = string

  type int32 = x: int | -0x8000_0000 <= x < 0x8000_0000

  /** The links found on a page; None is a bad fetch. */
  type Web = Url -> Option<seq<Url>>

  datatype Event = Open(url: Url) | Done(url: Url)

  datatype Worker = Idle | Working(url: Url, links: seq<Url>)

  datatype Coordinator = Receiving | Sending(url: Url) | Closed

  /** `fetched` lists every fetch made (history variable). */
  datatype State = State(
    evts: seq<Event>,
    waitDoing: seq<Url>,
    coordinator: Coordinator,
    workers: seq<Worker>,
    pendings: set<Url>,
    dones: set<Url>,
    fetched: seq<Url>)

  datatype Step = Receive | Send | Take(w: nat) | Emit(w: nat)

  const CAPACITY := 20

  /** The size is unsigned 64-bit and the signed limit is converted to it, so a negative limit is a huge one. */
  predicate Room(limit: int32, size: nat) {
    limit == 0 || size < if limit < 0 then limit + 0x1_0000_0000_0000_0000 else limit
  }

  function Links(web: Web, url: Url): seq<Url> {
    if web(url).Some? then web(url).value else []
  }

  predicate Enabled(s: State, step: Step) {
    match step
    case Receive => s.coordinator.Receiving? && s.evts != []
    case Send => s.coordinator.Sending? && |s.waitDoing| < CAPACITY
    case Take(w) => w < |s.workers| && s.workers[w].Idle? && s.waitDoing != []
    case Emit(w) => w < |s.workers| && s.workers[w].Working?
  }

  function DoReceive(limit: int32, s: State): State
    requires Enabled(s, Receive)
  {
    var evt, s1 := s.evts[0], s.(evts := s.evts[1..]);
    match evt
    case Open(url) => if Room(limit, |s.pendings|) && url !in s.pendings then s1.(coordinator := Sending(url)) else s1
    case Done(url) =>
      var dones := s.dones + {url};
      s1.(dones := dones, coordinator := if |dones| == |s.pendings| then Closed else Receiving)
  }

  function DoEmit(s: State, w: nat): State
    requires Enabled(s, Emit(w))
  {
    var job := s.workers[w];
    if job.links != [] then
      s.(evts := s.evts + [Open(job.links[0])], workers := s.workers[w := Working(job.url, job.links[1..])])
    else
      s.(evts := s.evts + [Done(job.url)], workers := s.workers[w := Idle])
  }

  function Do(web: Web, limit: int32, s: State, step: Step): State
    requires Enabled(s, step)
  {
    match step
    case Receive => DoReceive(limit, s)
    case Send =>
      var url := s.coordinator.url;
      s.(waitDoing := s.waitDoing + [url], pendings := s.pendings + {url}, coordinator := Receiving)
    case Take(w) =>
      var url := s.waitDoing[0];
      s.(waitDoing := s.waitDoing[1..], workers := s.workers[w := Working(url, Links(web, url))],
         fetched := s.fetched + [url])
    case Emit(w) => DoEmit(s, w)
  }

  function Start(entry: Url, processorCount: nat): State {
    State([Open(entry)], [], Receiving, seq(processorCount, _ => Idle), {}, {}, [])
  }

  ghost predicate EnabledRun(web: Web, limit: int32, s: State, steps: seq<Step>)
    decreases |steps|
  {
    steps != [] ==> Enabled(s, steps[0]) && EnabledRun(web, limit, Do(web, limit, s, steps[0]), steps[1..])
  }

  ghost function Run(web: Web, limit: int32, s: State, steps: seq<Step>): State
    requires EnabledRun(web, limit, s, steps)
    decreases |steps|
  {
    if steps == [] then s else Run(web, limit, Do(web, limit, s, steps[0]), steps[1..])
  }

  ghost predicate Reached(web: Web, limit: int32, entry: Url, processorCount: nat, s: State) {
    exists steps :: EnabledRun(web, limit, Start(entry, processorCount), steps)
                 && Run(web, limit, Start(entry, processorCount), steps) == s
  }

  /** The coordinator, the workers and their channels, updated in place. */
  class UrlGraph {
    const web: Web
    const limit: int32
    var evts: seq<Event>
    var waitDoing: seq<Url>
    var coordinator: Coordinator
    var workers: seq<Worker>
    var pendings: set<Url>
    var dones: set<Url>
    ghost var fetched: seq<Url>

    ghost function Now(): State
      reads this
    {
      State(evts, waitDoing, coordinator, workers, pendings, dones, fetched)
    }

    constructor (web: Web, entry: Url, limit: int32, processorCount: nat)
      ensures Now() == Start(entry, processorCount) && this.web == web && this.limit == limit
    {
      this.web, this.limit := web, limit;
      evts, waitDoing, coordinator := [Open(entry)], [], Receiving;
      workers, pendings, dones, fetched := seq(processorCount, _ => Idle), {}, {}, [];
    }

    method ReceiveEvent()
      requires Enabled(Now(), Receive)
      modifies this
      ensures Now() == Do(web, limit, old(Now()), Receive)
    {
      var evt := evts[0];
      evts := evts[1..];
      match evt
      case Open(url) =>
        if Room(limit, |pendings|) && url !in pendings {
          coordinator := Sending(url);
        }
      case Done(url) =>
        dones := dones + {url};
        if |dones| == |pendings| {
          coordinator := Closed;
        }
    }

    method SendUrl()
      requires Enabled(Now(), Send)
      modifies this
      ensures Now() == Do(web, limit, old(Now()), Send)
    {
      waitDoing := waitDoing + [coordinator.url];
      pendings := pendings + {coordinator.url};
      coordinator := Receiving;
    }

    method Fetch(w: nat)
      requires Enabled(Now(), Take(w))
      modifies this
      ensures Now() == Do(web, limit, old(Now()), Take(w))
    {
      var url := waitDoing[0];
      waitDoing := waitDoing[1..];
      fetched := fetched + [url];
      workers := workers[w := Working(url, Links(web, url))];
    }

    method EmitEvent(w: nat)
      requires Enabled(Now(), Emit(w))
      modifies this
      ensures Now() == Do(web, limit, old(Now()), Emit(w))
    {
      var job := workers[w];
      if job.links != [] {
        evts := evts + [Open(job.links[0])];
        workers := workers[w := Working(job.url, job.links[1..])];
      } else {
        evts := evts + [Done(job.url)];
        workers := workers[w := Idle];
      }
    }
  }
}
