/** The source side of a recovery, and what a complete transfer does to its target. */
module BlockCopy {
  import opened Common
  import opened CopySpec
  import opened NodeSpec
  import Arith

  /** Reads the block file chunk by chunk and sends it, between an announcement and a completion. */
  method Start(version: int, size: nat, file: Bytes, batch: nat) returns (sent: seq<Msg>)
    requires 0 < batch
    ensures sent == CopyMessages(version, size, file, batch)
  {
    sent := [];
    if |file| != size {
      return;
    }
    if size % batch != 0 {
      return;
    }
    sent := [StartRecoverBlock(version, size)];
    var offset := 0;
    while true
      invariant offset <= |file|
      invariant sent + Chunks(version, file, offset, batch) ==
                  [StartRecoverBlock(version, size)] + Chunks(version, file, 0, batch)
      decreases |file| - offset
    {
      var count := if offset + batch <= |file| then batch else |file| - offset;
      if count == 0 {
        break;
      }
      sent := sent + [RecoverBlockData(version, offset, file[offset..offset + count])];
      offset := offset + count;
    }
    sent := sent + [RecoverBlockComplete(version)];
  }

  function ReceiveAll(cfg: Config, self: int, copy: Option<Copy>, msgs: seq<Msg>): Option<Copy>
    requires cfg.Valid()
    decreases |msgs|
  {
    if msgs == [] then copy else ReceiveAll(cfg, self, Receive(cfg, self, copy, msgs[0]).copy, msgs[1..])
  }

  lemma {:induction false} ReceiveAllInTwo(cfg: Config, self: int, copy: Option<Copy>, a: seq<Msg>, b: seq<Msg>)
    requires cfg.Valid()
    ensures ReceiveAll(cfg, self, copy, a + b) == ReceiveAll(cfg, self, ReceiveAll(cfg, self, copy, a), b)
    decreases |a|
  {
    if a == [] {
      assert a + b == b;
    } else {
      assert (a + b)[0] == a[0] && (a + b)[1..] == a[1..] + b;
      ReceiveAllInTwo(cfg, self, Receive(cfg, self, copy, a[0]).copy, a[1..], b);
    }
  }

  /** A recovery at `version` that already holds the first `offset` bytes of `file`. */
  ghost predicate Holds(cfg: Config, c: Copy, version: int, file: Bytes, offset: nat)
    requires cfg.Valid()
  {
    && c.recovery.Some? && c.recovery.value.version == version && c.recovery.value.size == |file| == |c.file|
    && |c.recovery.value.flags| == |file| / cfg.batch
    && offset <= |file| && c.file[..offset] == file[..offset]
    && forall i :: 0 <= i < |c.recovery.value.flags| && i < offset / cfg.batch ==> c.recovery.value.flags[i]
  }

  lemma OneChunkMore(cfg: Config, c: Copy, version: int, file: Bytes, offset: nat)
    requires cfg.Valid() && |file| % cfg.batch == 0 && offset % cfg.batch == 0 && offset < |file|
    requires Holds(cfg, c, version, file, offset)
    ensures var end := offset + cfg.batch;
            && end <= |file| && end % cfg.batch == 0
            && Holds(cfg, RecoverData(c, version, offset, file[offset..end], cfg.batch), version, file, end)
  {
    Arith.WholeChunkFits(|file|, offset, cfg.batch);
    var end := offset + cfg.batch;
    var c' := RecoverData(c, version, offset, file[offset..end], cfg.batch);
    assert c'.file[..end] == c'.file[..offset] + c'.file[offset..offset + cfg.batch];
    assert c'.file[..offset] == c.file[..offset];
    assert file[..end] == file[..offset] + file[offset..end];
    Arith.Quotient(end, offset / cfg.batch + 1, 0, cfg.batch);
  }

  lemma FirstChunkReceived(cfg: Config, self: int, c: Copy, version: int, file: Bytes, offset: nat)
    requires cfg.Valid() && offset + cfg.batch <= |file|
    ensures var end := offset + cfg.batch;
            ReceiveAll(cfg, self, Some(c), Chunks(version, file, offset, cfg.batch)) ==
            ReceiveAll(cfg, self, Some(RecoverData(c, version, offset, file[offset..end], cfg.batch)),
                       Chunks(version, file, end, cfg.batch))
  {
    assert Chunks(version, file, offset, cfg.batch)[1..] == Chunks(version, file, offset + cfg.batch, cfg.batch);
  }

  lemma {:induction false} ChunksFillTheFile(cfg: Config, self: int, c: Copy, version: int, file: Bytes, offset: nat)
    requires cfg.Valid() && |file| % cfg.batch == 0 && offset % cfg.batch == 0
    requires Holds(cfg, c, version, file, offset)
    ensures var r := ReceiveAll(cfg, self, Some(c), Chunks(version, file, offset, cfg.batch));
            r.Some? && Holds(cfg, r.value, version, file, |file|)
    decreases |file| - offset
  {
    if offset < |file| {
      OneChunkMore(cfg, c, version, file, offset);
      var end := offset + cfg.batch;
      var c' := RecoverData(c, version, offset, file[offset..end], cfg.batch);
      ChunksFillTheFile(cfg, self, c', version, file, end);
      FirstChunkReceived(cfg, self, c, version, file, offset);
    }
  }

  /** If everything a source sends arrives in order, a target with an older version that is not
      busy with a newer recovery ends up equal to the source; before the last message it holds all
      the bytes, and that message completes the recovery. */
  lemma TransferReproducesTheSource(cfg: Config, self: int, source: Copy, target: Option<Copy>)
    requires cfg.Valid() && source.size == |source.file| && source.size % cfg.batch == 0 && source.recovery.None?
    requires var t := GetOrCreate(target);
             t.version < source.version && (t.recovery.Some? ==> t.recovery.value.version < source.version)
    ensures ReceiveAll(cfg, self, target, CopyMessages(source.version, source.size, source.file, cfg.batch)) ==
            Some(source)
    ensures var sent := [StartRecoverBlock(source.version, source.size)]
                        + Chunks(source.version, source.file, 0, cfg.batch);
            var before := ReceiveAll(cfg, self, target, sent);
            before.Some? && RecoveryDone(before.value, source.version)
            && CompleteRecover(before.value, source.version) == source
  {
    var v, file := source.version, source.file;
    var start, data, end := StartRecoverBlock(v, source.size), Chunks(v, file, 0, cfg.batch), RecoverBlockComplete(v);
    var c := Receive(cfg, self, target, start).copy;
    ReceiveAllInTwo(cfg, self, target, [start] + data, [end]);
    ReceiveAllInTwo(cfg, self, target, [start], data);
    assert ReceiveAll(cfg, self, target, [start]) == c;
    ChunksFillTheFile(cfg, self, c.value, v, file, 0);
    var filled := ReceiveAll(cfg, self, c, data);
    assert filled.value.file == filled.value.file[..|file|] == file;
    assert RecoveryDone(filled.value, v);
    assert ReceiveAll(cfg, self, filled, [end]) == Receive(cfg, self, filled, end).copy;
  }
}
