/** Replication of one block as a step system: clients holding leases, chunk servers, the master,
    and a network that may lose, repeat and reorder everything ever sent. */
module Replication {
  import opened Common
  import opened CopySpec
  import opened NodeSpec
  import M = MasterSpec
  import Arith

  /** Bytes a recovery source put on the wire. */
  datatype Snapshot = Snapshot(source: int, version: int, bytes: Bytes)

  /** `net` holds every message ever sent, so a message may arrive never, once or many times and in
      any order. `history` and `snapshots` are history variables: the bytes each minted version
      stood for at its primary, and what recovery sources sent. */
  datatype State = State(
    copies: map<int, Copy>,
    net: set<Envelope>,
    master: M.Master,
    tokens: set<Token>,
    now: int,
    history: map<int, Bytes>,
    snapshots: set<Snapshot>)

  const Init: State := State(map[], {}, M.NewMaster, {}, 0, map[0 := []], {})

  datatype Step =
    | Tick(now: int)
    | Grant(usable: set<int>, distributed: seq<int>)
    | Place(servers: seq<int>)
    | ClientWrites(token: Token, servers: seq<int>, offset: nat, data: Bytes)
    | ClientAppends(token: Token, servers: seq<int>, data: Bytes)
    | Deliver(envelope: Envelope)
    | CopyTo(source: int, version: int, target: int)
    | Heartbeat(node: int)

  function CopyAt(s: State, node: int): Option<Copy> {
    if node in s.copies then Some(s.copies[node]) else None
  }

  function VersionAt(s: State, node: int): int {
    GetOrCreate(CopyAt(s, node)).version
  }

  function Store(s: State, node: int, r: NodeResult): State {
    s.(copies := if r.copy.Some? then s.copies[node := r.copy.value] else s.copies,
       net := s.net + set e | e in r.out)
  }

  /** A client call that minted a version records what that version stands for. */
  function StoreMinted(s: State, node: int, r: NodeResult): State {
    var s' := Store(s, node, r);
    if r.code == Success && r.copy.Some?
    then s'.(history := s.history[r.copy.value.version := r.copy.value.file])
    else s'
  }

  function MasterGrant(cfg: Config, s: State, usable: set<int>, distributed: seq<int>): M.Grant {
    M.Write(s.master, s.now, usable, distributed, cfg.writeLease)
  }

  function Issue(g: M.Grant): Token
    requires g.main.Some? && g.main.value < |g.master.replicas|
  {
    Token(g.master.replicas[g.main.value].server, g.master.lease, g.master.version, g.master.expectVersion)
  }

  /** What the code does; a step that the code refuses or that refers to nothing leaves the state alone. */
  function Do(cfg: Config, s: State, step: Step): State
    requires cfg.Valid()
  {
    match step
    case Tick(now) => s.(now := now)
    case Grant(usable, distributed) =>
      var g := MasterGrant(cfg, s, usable, distributed);
      s.(master := g.master, tokens := if g.main.Some? then s.tokens + {Issue(g)} else s.tokens)
    case Place(servers) => s.(master := s.master.(replicas := s.master.replicas + M.Fresh(servers)))
    case ClientWrites(token, servers, offset, data) =>
      if token !in s.tokens then s
      else
        StoreMinted(s, token.primary,
                    ClientWrite(cfg, token.primary, CopyAt(s, token.primary), s.now, token, servers, offset, data))
    case ClientAppends(token, servers, data) =>
      if token !in s.tokens then s
      else
        StoreMinted(s, token.primary,
                    ClientAppend(cfg, token.primary, CopyAt(s, token.primary), s.now, token, servers, data))
    case Deliver(e) =>
      if e !in s.net then s
      else if e.msg.UpdateBlock? then
        s.(master := M.UpdateReplica(s.master, e.msg.node, e.msg.version, e.msg.size, e.msg.fault).0)
      else if e.msg.ReportBlock? then
        s.(master := M.ReportReplica(s.master, e.msg.node, e.msg.version, e.msg.size, e.msg.fault).0)
      else Store(s, e.to, Receive(cfg, e.to, CopyAt(s, e.to), e.msg))
    case CopyTo(source, version, target) =>
      if source !in s.copies || s.copies[source].version < version then s
      else
        var c := s.copies[source];
        var msgs := CopyMessages(c.version, c.size, c.file, cfg.batch);
        s.(net := s.net + (set m | m in msgs :: Envelope(target, m)),
           snapshots := if msgs == [] then s.snapshots else s.snapshots + {Snapshot(source, c.version, c.file)})
    case Heartbeat(node) =>
      if node !in s.copies then s
      else
        var c := s.copies[node];
        s.(net := s.net + {Envelope(MASTER_NODE, ReportBlock(node, c.version, c.size, false))})
  }

  ghost predicate IsTop(h: map<int, Bytes>, version: int) {
    forall w :: w in h ==> w <= version
  }

  ghost predicate Above(h: map<int, Bytes>, version: int) {
    forall w :: w in h ==> w < version
  }

  /** The master knows a version of the newest lease under which anything was minted. */
  ghost predicate Reported(s: State) {
    forall w :: w in s.history ==> M.Hi(w) <= M.Hi(s.master.version)
  }

  /** A recovery to another size sends nothing, and of an empty file there are no bytes to send. */
  predicate SafeToCopy(c: Copy) {
    c.recovery.None? || c.recovery.value.size != c.size || c.size == 0
  }

  /** What the code leaves to its environment: the clock does not run backwards, a lease is granted
      to another server only after the earlier ones have run out and been reported, and a server
      asked to copy a block is not itself recovering it to the same positive size. */
  ghost predicate Allowed(cfg: Config, s: State, step: Step) {
    match step
    case Tick(now) => s.now <= now
    case Grant(usable, distributed) =>
      var g := MasterGrant(cfg, s, usable, distributed);
      g.main.Some? ==>
        var p := Issue(g).primary;
        && (forall t :: t in s.tokens && t.primary != p ==> t.until < s.now)
        && (M.StartsLease(s.master, s.now, usable, distributed) ==>
              IsTop(s.history, VersionAt(s, p)) || (Reported(s) && 0 <= M.Hi(s.master.version) < M.HIGH_WORD))
    case CopyTo(source, version, target) => source in s.copies ==> SafeToCopy(s.copies[source])
    case _ => true
  }

  // ---- Invariant ----

  ghost predicate HistoryOk(cfg: Config, h: map<int, Bytes>)
    requires cfg.Valid()
  {
    && 0 in h && h[0] == []
    && forall v :: v in h ==> 0 <= v && |h[v]| % cfg.batch == 0 && |h[v]| <= cfg.blockSize
  }

  /** Chunks flagged as received hold the bytes of the version that is being recovered. */
  ghost predicate FlaggedOk(file: Bytes, whole: Bytes, flags: seq<bool>, batch: nat)
    requires 0 < batch && |file| == |whole|
  {
    forall i :: 0 <= i < |whole| && i / batch < |flags| && flags[i / batch] ==> file[i] == whole[i]
  }

  ghost predicate CopyOk(cfg: Config, h: map<int, Bytes>, c: Copy)
    requires cfg.Valid()
  {
    && c.version in h
    && c.size == |h[c.version]|
    && match c.recovery
       case None => c.file == h[c.version]
       case Some(r) =>
         && r.version in h && c.version < r.version
         && r.size == |h[r.version]| == |c.file|
         && |r.flags| == r.size / cfg.batch
         && FlaggedOk(c.file, h[r.version], r.flags, cfg.batch)
  }

  ghost predicate MsgOk(cfg: Config, h: map<int, Bytes>, m: Msg)
    requires cfg.Valid()
  {
    match m
    case WriteNotify(version, newVersion, offset, data) =>
      && version in h && newVersion in h && version < newVersion
      && offset + |data| <= |h[version]| && h[newVersion] == Splice(h[version], offset, data)
    case AppendNotify(version, newVersion, data) =>
      && version in h && newVersion in h && version < newVersion
      && h[newVersion] == h[version] + data
    case StartRecoverBlock(version, size) => version in h && size == |h[version]|
    case RecoverBlockData(version, offset, data) =>
      && version in h && offset % cfg.batch == 0 && offset + cfg.batch <= |h[version]|
      && data == h[version][offset..offset + cfg.batch]
    case RecoverBlockComplete(version) => version in h
    case UpdateBlock(_, version, size, _) => version in h && size == |h[version]|
    case ReportBlock(_, version, size, _) => version in h && size == |h[version]|
  }

  ghost predicate LeasesOk(s: State) {
    && 0 <= s.now
    && (forall t, u :: t in s.tokens && u in s.tokens && s.now <= t.until && s.now <= u.until ==>
        t.primary == u.primary)
    && (forall t :: t in s.tokens && s.now <= t.until ==>
          IsTop(s.history, VersionAt(s, t.primary))
          || (Above(s.history, t.newVersion) && Above(s.history, s.master.expectVersion)))
    && (forall r :: r in s.master.replicas && s.now < r.lease ==> LeaseIssued(s.tokens, r))
  }

  ghost predicate LeaseIssued(tokens: set<Token>, r: M.Replica) {
    exists t :: t in tokens && t.primary == r.server && r.lease <= t.until
  }

  ghost predicate Inv(cfg: Config, s: State)
    requires cfg.Valid()
  {
    && HistoryOk(cfg, s.history)
    && (forall n :: n in s.copies ==> CopyOk(cfg, s.history, s.copies[n]))
    && (forall e :: e in s.net ==> MsgOk(cfg, s.history, e.msg))
    && (forall p :: p in s.snapshots ==> p.version in s.history && p.bytes == s.history[p.version])
    && LeasesOk(s)
  }
}
