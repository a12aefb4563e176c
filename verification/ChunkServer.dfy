/** The chunk server's request and message handlers for one block, in place on a Block object. */
module ChunkServer {
  import opened Common
  import opened CopySpec
  import opened NodeSpec
  import opened ChunkBlock
  import BlockCopy

  class Server {
    const id: int
    const cfg: Config
    var block: Block?
    var outbox: seq<Envelope>

    ghost predicate Valid()
      reads this, block, if block == null then {} else {block.recover}
    {
      cfg.Valid() && (block != null ==> block.Valid() && block.batch == cfg.batch && block.blockSize == cfg.blockSize)
    }

    ghost function State(): Option<Copy>
      reads this, block, if block == null then {} else {block.recover, block.file}
    {
      if block == null then None else Some(block.State())
    }

    ghost function Footprint(): set<object?>
      reads this, block
    {
      {this, block} + if block == null then {} else {block.recover, block.file}
    }

    constructor (id: int, cfg: Config)
      requires cfg.Valid()
      ensures Valid() && State() == None && outbox == [] && this.id == id && this.cfg == cfg
    {
      this.id, this.cfg, block, outbox := id, cfg, null, [];
    }

    method SendAll(servers: seq<int>, m: Msg)
      modifies this`outbox
      ensures outbox == old(outbox) + FanOut(servers, m)
    {
      for i := 0 to |servers|
        invariant outbox == old(outbox) + FanOut(servers, m)[..i]
      {
        outbox := outbox + [Envelope(servers[i], m)];
      }
    }

    method ReportToMaster(b: Block)
      requires b.Valid()
      modifies this`outbox
      ensures outbox == old(outbox) + [Report(id, b.State())]
    {
      outbox := outbox + [Envelope(MASTER_NODE, UpdateBlock(id, b.version, b.size, b.recover != null))];
    }

    method GetOrCreateBlock() returns (b: Block)
      requires Valid()
      modifies this`block
      ensures Valid() && block == b && b.State() == GetOrCreate(old(State()))
      ensures old(block) != null ==> b == old(block)
      ensures old(block) == null ==> fresh(b) && fresh(b.file) && b.recover == null
    {
      if block == null {
        block := new Block(cfg.batch, cfg.blockSize);
      }
      b := block;
    }

    method ClientWrite(now: int, token: Token, servers: seq<int>, offset: nat, data: Bytes) returns (code: Code)
      requires Valid()
      modifies Footprint()
      ensures Valid()
      ensures var r := NodeSpec.ClientWrite(cfg, id, old(State()), now, token, servers, offset, data);
              State() == r.copy && code == r.code && outbox == old(outbox) + r.out
    {
      if token.until < now {
        return LeaseExpired;
      }
      if |data| != cfg.batch {
        return CheckSizeFailed;
      }
      if block == null {
        return BlockNotExist;
      }
      var b := block;
      var oldVersion := b.version;
      code := b.Write(token.version, token.newVersion, offset, data, false);
      if code == Success {
        SendAll(servers, WriteNotify(oldVersion, b.version, offset, data));
        ReportToMaster(b);
      }
    }

    method ClientAppend(now: int, token: Token, servers: seq<int>, data: Bytes) returns (code: Code)
      requires Valid()
      modifies Footprint()
      ensures Valid()
      ensures var r := NodeSpec.ClientAppend(cfg, id, old(State()), now, token, servers, data);
              State() == r.copy && code == r.code && outbox == old(outbox) + r.out
    {
      if token.until < now {
        return LeaseExpired;
      }
      if |data| != cfg.batch {
        return CheckSizeFailed;
      }
      var b := GetOrCreateBlock();
      var oldVersion := b.version;
      code := b.Append(token.version, token.newVersion, data, false);
      if code == Success {
        SendAll(servers, AppendNotify(oldVersion, b.version, data));
        ReportToMaster(b);
      }
    }

    /** The handlers for messages from the primary and from a recovery source. */
    method OnMessage(m: Msg)
      requires Valid()
      requires m.RecoverBlockData? && block != null && block.recover != null && block.recover.version == m.version ==>
                 m.offset / cfg.batch < |block.recover.dataFlags|
      modifies Footprint()
      ensures Valid()
      ensures var r := Receive(cfg, id, old(State()), m);
              State() == r.copy && outbox == old(outbox) + r.out
    {
      match m
      case WriteNotify(version, newVersion, offset, data) =>
        if block != null {
          var b := block;
          var code := b.Write(version, newVersion, offset, data, true);
          if code == Success {
            ReportToMaster(b);
          }
        }
      case AppendNotify(version, newVersion, data) =>
        var b := GetOrCreateBlock();
        var code := b.Append(version, newVersion, data, true);
        if code == Success {
          ReportToMaster(b);
        }
      case StartRecoverBlock(version, size) =>
        var b := GetOrCreateBlock();
        b.Resize(version, size);
      case RecoverBlockData(version, offset, data) =>
        if block != null {
          block.RecoverData(version, offset, data);
        }
      case RecoverBlockComplete(version) =>
        if block != null {
          var b := block;
          var done := b.CompleteRecover(version);
          if done {
            ReportToMaster(b);
          }
        }
      case _ =>
    }

    /** One target of the master's recover command; the copy is sent under the block's read lock. */
    method StartRecover(version: int, lease: int, now: int, copyTo: int)
      requires Valid() && block != null
      modifies this`outbox
      ensures outbox == old(outbox) +
                if block.version < version || lease <= now then []
                else FanOutTo(copyTo, CopyMessages(block.version, block.size, block.file.bytes, cfg.batch))
    {
      if block.version < version {
        return;
      }
      if now >= lease {
        return;
      }
      var sent := BlockCopy.Start(block.version, block.size, block.file.bytes, cfg.batch);
      outbox := outbox + FanOutTo(copyTo, sent);
    }
  }

  function FanOutTo(to: int, msgs: seq<Msg>): seq<Envelope> {
    seq(|msgs|, i requires 0 <= i < |msgs| => Envelope(to, msgs[i]))
  }
}
