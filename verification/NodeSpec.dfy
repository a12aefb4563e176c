/** What a chunk server does with a client request or a message: a function from its copy of the
    block (if it has one) to the new copy and the messages it sends. */
module NodeSpec {
  import opened Common
  import opened CopySpec
  import Arith

  const MASTER_NODE := 0

  /** `batch` is the only payload size clients may send; `blockSize` is the capacity of a block. */
  datatype Config = Config(batch: nat, blockSize: nat, writeLease: nat) {
    ghost predicate Valid() {
      0 < batch && blockSize % batch == 0 && 0 < blockSize && 0 < writeLease
    }
  }

  /** The lease a client presents to a primary. */
  datatype Token = Token(primary: int, until: int, version: int, newVersion: int)

  datatype Msg =
    | WriteNotify(version: int, newVersion: int, offset: nat, data: Bytes)
    | AppendNotify(version: int, newVersion: int, data: Bytes)
    | StartRecoverBlock(version: int, size: nat)
    | RecoverBlockData(version: int, offset: nat, data: Bytes)
    | RecoverBlockComplete(version: int)
    | UpdateBlock(node: int, version: int, size: nat, fault: bool)
    | ReportBlock(node: int, version: int, size: nat, fault: bool)

  datatype Envelope = Envelope(to: int, msg: Msg)

  datatype NodeResult = NodeResult(copy: Option<Copy>, out: seq<Envelope>, code: Code)

  function FanOut(servers: seq<int>, m: Msg): (out: seq<Envelope>)
    ensures |out| == |servers|
  {
    seq(|servers|, i requires 0 <= i < |servers| => Envelope(servers[i], m))
  }

  function Report(self: int, c: Copy): Envelope {
    Envelope(MASTER_NODE, UpdateBlock(self, c.version, c.size, c.recovery.Some?))
  }

  function GetOrCreate(copy: Option<Copy>): Copy {
    if copy.Some? then copy.value else NewCopy
  }

  function ClientWrite(cfg: Config, self: int, copy: Option<Copy>, now: int, token: Token, servers: seq<int>,
                       offset: nat, data: Bytes): NodeResult
  {
    if token.until < now then NodeResult(copy, [], LeaseExpired)
    else if |data| != cfg.batch then NodeResult(copy, [], CheckSizeFailed)
    else if copy.None? then NodeResult(copy, [], BlockNotExist)
    else
      var o := Write(copy.value, token.version, token.newVersion, offset, data, false);
      if o.code != Success then NodeResult(Some(o.copy), [], o.code)
      else
        var notify := WriteNotify(copy.value.version, o.copy.version, offset, data);
        NodeResult(Some(o.copy), FanOut(servers, notify) + [Report(self, o.copy)], Success)
  }

  function ClientAppend(cfg: Config, self: int, copy: Option<Copy>, now: int, token: Token, servers: seq<int>,
                        data: Bytes): NodeResult
  {
    if token.until < now then NodeResult(copy, [], LeaseExpired)
    else if |data| != cfg.batch then NodeResult(copy, [], CheckSizeFailed)
    else
      var c := GetOrCreate(copy);
      var o := Append(c, token.version, token.newVersion, data, false, cfg.blockSize);
      if o.code != Success then NodeResult(Some(o.copy), [], o.code)
      else
        var notify := AppendNotify(c.version, o.copy.version, data);
        NodeResult(Some(o.copy), FanOut(servers, notify) + [Report(self, o.copy)], Success)
  }

  /** Messages addressed to the master are not handled here and change nothing. */
  function Receive(cfg: Config, self: int, copy: Option<Copy>, m: Msg): NodeResult
    requires cfg.Valid()
  {
    match m
    case WriteNotify(version, newVersion, offset, data) =>
      if copy.None? then NodeResult(copy, [], BlockNotExist)
      else
        var o := Write(copy.value, version, newVersion, offset, data, true);
        NodeResult(Some(o.copy), if o.code == Success then [Report(self, o.copy)] else [], o.code)
    case AppendNotify(version, newVersion, data) =>
      var o := Append(GetOrCreate(copy), version, newVersion, data, true, cfg.blockSize);
      NodeResult(Some(o.copy), if o.code == Success then [Report(self, o.copy)] else [], o.code)
    case StartRecoverBlock(version, size) =>
      NodeResult(Some(Resize(GetOrCreate(copy), version, size, cfg.batch)), [], Success)
    case RecoverBlockData(version, offset, data) =>
      if copy.None? then NodeResult(copy, [], BlockNotExist)
      else NodeResult(Some(RecoverData(copy.value, version, offset, data, cfg.batch)), [], Success)
    case RecoverBlockComplete(version) =>
      if copy.None? then NodeResult(copy, [], BlockNotExist)
      else
        var c := CompleteRecover(copy.value, version);
        NodeResult(Some(c), if RecoveryDone(copy.value, version) then [Report(self, c)] else [], Success)
    case _ => NodeResult(copy, [], Success)
  }

  /** The chunk messages of a file, in order, starting at `offset`. */
  function Chunks(version: int, file: Bytes, offset: nat, batch: nat): seq<Msg>
    requires 0 < batch
    decreases |file| - offset
  {
    if |file| <= offset then []
    else
      var end := if offset + batch <= |file| then offset + batch else |file|;
      [RecoverBlockData(version, offset, file[offset..end])] + Chunks(version, file, end, batch)
  }

  /** Everything one recovery of a file sends to its target; nothing unless the file has the
      recorded size and is cut into whole chunks. */
  function CopyMessages(version: int, size: nat, file: Bytes, batch: nat): seq<Msg>
    requires 0 < batch
  {
    if |file| != size || size % batch != 0 then []
    else [StartRecoverBlock(version, size)] + Chunks(version, file, 0, batch) + [RecoverBlockComplete(version)]
  }

  /** A copy is sent exactly if the file has its recorded size, in whole batches. */
  lemma CopyIsSentIff(version: int, size: nat, file: Bytes, batch: nat)
    requires 0 < batch
    ensures CopyMessages(version, size, file, batch) != [] <==> |file| == size && |file| % batch == 0
    ensures CopyMessages(version, size, file, batch) != [] ==>
              var msgs := CopyMessages(version, size, file, batch);
              && 2 <= |msgs| && msgs[0] == StartRecoverBlock(version, |file|)
              && msgs[|msgs| - 1] == RecoverBlockComplete(version)
  {
  }

  lemma {:induction false} ChunksAreAuthentic(version: int, file: Bytes, offset: nat, batch: nat, m: Msg)
    requires 0 < batch && |file| % batch == 0 && offset % batch == 0
    requires m in Chunks(version, file, offset, batch)
    ensures m.RecoverBlockData? && m.version == version && m.offset % batch == 0
    ensures m.offset + batch <= |file| && m.data == file[m.offset..m.offset + batch]
    decreases |file| - offset
  {
    if offset < |file| {
      Arith.WholeChunkFits(|file|, offset, batch);
      if m != RecoverBlockData(version, offset, file[offset..offset + batch]) {
        ChunksAreAuthentic(version, file, offset + batch, batch, m);
      }
    }
  }

  /** What a client is told of its own mistakes, before the block is looked at; a write to a block that
      the server does not have is refused, while an append creates it. */
  lemma ClientsAreToldWhy(cfg: Config, self: int, copy: Option<Copy>, now: int, token: Token, servers: seq<int>,
                          offset: nat, data: Bytes)
    ensures var late, odd := token.until < now, |data| != cfg.batch;
            var w, a := ClientWrite(cfg, self, copy, now, token, servers, offset, data),
                        ClientAppend(cfg, self, copy, now, token, servers, data);
            && (w.code == LeaseExpired <==> late) && (a.code == LeaseExpired <==> late)
            && (w.code == CheckSizeFailed <==> !late && odd) && (a.code == CheckSizeFailed <==> !late && odd)
            && (w.code == BlockNotExist <==> !late && !odd && copy.None?) && a.code != BlockNotExist
            && (late || odd ==> w.copy == copy && a.copy == copy)
            && (a.copy.None? <==> (late || odd) && copy.None?)
            && (w.code != Success ==> w.out == []) && (a.code != Success ==> a.out == [])
  {
  }
}
