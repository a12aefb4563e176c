/** Downloading a file block by block from whichever chunk server answers. */
module Downloader {
  import opened Arith
  import opened Common
  import opened CopySpec
  import opened FileGrowth
  import R = Replication
  import RS = ReplicationSafety
  import NodeSpec

  /** What the downloader meets: the file's size and block size as the master reports them (size -1
      if it does not), the chunk servers it names for a block with their copies, which connections
      succeed, and which reads are answered. A read is named by block, server and offset: no
      download asks the same one twice. */
  datatype Remote = Remote(
    size: int,
    blockSize: nat,
    batch: nat,
    eps: int -> Option<seq<Option<Copy>>>,
    connects: (int, nat) -> bool,
    answers: (int, nat, nat) -> bool)

  function Servers(remote: Remote, index: int): seq<Option<Copy>> {
    if remote.eps(index).Some? then remote.eps(index).value else []
  }

  /** A read returns one whole batch. */
  function Reply(remote: Remote, index: int, i: nat, offset: nat): ReadReply
    requires i < |Servers(remote, index)|
  {
    if !remote.answers(index, i, offset) || Servers(remote, index)[i].None? then Failed(BlockNotExist)
    else Read(Servers(remote, index)[i].value, offset, remote.batch)
  }

  function BlockLength(size: nat, blockSize: nat, index: nat): int
    requires 0 < blockSize
  {
    if index != CalcBlockCount(size, blockSize) then blockSize else size - (index - 1) * blockSize
  }

  lemma BlockBounds(size: nat, blockSize: nat)
    requires 0 < blockSize && 0 < size
    ensures var n := CalcBlockCount(size, blockSize); 1 <= n && (n - 1) * blockSize < size <= n * blockSize
  {
    var q, r := size / blockSize, size % blockSize;
    assert size == q * blockSize + r;
  }

  function TotalLength(size: nat, blockSize: nat, n: nat): int
    requires 0 < blockSize
  {
    if n == 0 then 0 else TotalLength(size, blockSize, n - 1) + BlockLength(size, blockSize, n)
  }

  lemma {:induction false} WholeBlocks(size: nat, blockSize: nat, n: nat)
    requires 0 < blockSize && n < CalcBlockCount(size, blockSize)
    ensures TotalLength(size, blockSize, n) == n * blockSize
  {
    if 0 < n {
      WholeBlocks(size, blockSize, n - 1);
      assert n * blockSize == (n - 1) * blockSize + blockSize;
    }
  }

  /** The lengths asked for add up to the file's size, and none is empty or longer than a block. */
  lemma LengthsAddUp(size: nat, blockSize: nat, index: nat)
    requires 0 < blockSize && 1 <= index <= CalcBlockCount(size, blockSize)
    ensures TotalLength(size, blockSize, CalcBlockCount(size, blockSize)) == size
    ensures 0 < BlockLength(size, blockSize, index) <= blockSize
  {
    var n := CalcBlockCount(size, blockSize);
    if size == 0 {
      assert false;
    }
    BlockBounds(size, blockSize);
    WholeBlocks(size, blockSize, n - 1);
    assert n * blockSize == (n - 1) * blockSize + blockSize;
  }

  function BlockOf(content: Bytes, blockSize: nat, index: nat): (block: Bytes)
    requires 0 < blockSize && 1 <= index <= CalcBlockCount(|content|, blockSize)
    ensures |block| == BlockLength(|content|, blockSize, index)
  {
    BlockBoundsAt(|content|, blockSize, index);
    var from := (index - 1) * blockSize;
    content[from..from + BlockLength(|content|, blockSize, index)]
  }

  lemma BlockBoundsAt(size: nat, blockSize: nat, index: nat)
    requires 0 < blockSize && 1 <= index <= CalcBlockCount(size, blockSize)
    ensures 0 <= (index - 1) * blockSize && 0 < BlockLength(size, blockSize, index)
    ensures (index - 1) * blockSize + BlockLength(size, blockSize, index) ==
            if index == CalcBlockCount(size, blockSize) then size else index * blockSize
    ensures (index - 1) * blockSize + BlockLength(size, blockSize, index) <= size
  {
    LengthsAddUp(size, blockSize, index);
    BlockBounds(size, blockSize);
    assert index * blockSize == (index - 1) * blockSize + blockSize;
    if index < CalcBlockCount(size, blockSize) {
      MulMonotone(index, CalcBlockCount(size, blockSize) - 1, blockSize);
    }
  }

  /** Whatever a server answers with is the file's. */
  ghost predicate Truthful(remote: Remote, index: int, block: Bytes) {
    forall i, offset :: 0 <= i < |Servers(remote, index)| && 0 <= offset && Reply(remote, index, i, offset).Data? ==>
      offset + remote.batch <= |block| && Reply(remote, index, i, offset).data == block[offset..offset + remote.batch]
  }

  /** Replication provides for that: whatever has been lost or repeated, chunk servers whose copies
      carry one version answer with the bytes that version stands for, or not at all. */
  lemma ReplicasAreTruthful(cfg: NodeSpec.Config, s: R.State, remote: Remote, index: int, nodes: seq<int>, version: int)
    requires cfg.Valid() && RS.Reachable(cfg, s) && version in s.history
    requires |Servers(remote, index)| == |nodes|
    requires forall i :: 0 <= i < |nodes| ==> Servers(remote, index)[i] == R.CopyAt(s, nodes[i])
    requires forall i :: 0 <= i < |nodes| && nodes[i] in s.copies ==> s.copies[nodes[i]].version == version
    ensures Truthful(remote, index, s.history[version])
  {
    RS.ReachableStatesAreSafe(cfg, s);
    forall i, offset | 0 <= i < |Servers(remote, index)| && 0 <= offset && Reply(remote, index, i, offset).Data?
      ensures offset + remote.batch <= |s.history[version]|
      ensures Reply(remote, index, i, offset).data == s.history[version][offset..offset + remote.batch]
    {
      assert R.CopyOk(cfg, s.history, s.copies[nodes[i]]);
    }
  }

  ghost predicate AllTruthful(remote: Remote, content: Bytes)
    requires 0 < remote.blockSize
  {
    remote.size == |content| &&
    forall index: nat :: 1 <= index <= CalcBlockCount(|content|, remote.blockSize) ==>
      Truthful(remote, index, BlockOf(content, remote.blockSize, index))
  }

  /** This server can be reached and answers every batch of a block of this length. */
  ghost predicate Healthy(remote: Remote, index: int, i: nat, length: int) {
    && i < |Servers(remote, index)| && remote.connects(index, i) && 0 < remote.batch
    && forall offset: nat :: offset < length && offset % remote.batch == 0 ==> Reply(remote, index, i, offset).Data?
  }

  ghost predicate HealthyBlock(remote: Remote, index: nat)
    requires 0 < remote.blockSize && 0 <= remote.size
  {
    exists i :: Healthy(remote, index, i, BlockLength(remote.size, remote.blockSize, index))
  }

  ghost predicate AllHealthy(remote: Remote)
    requires 0 < remote.blockSize
  {
    0 <= remote.size &&
    forall index: nat :: 1 <= index <= CalcBlockCount(remote.size, remote.blockSize) ==> HealthyBlock(remote, index)
  }

  /** `local` is what it was with the block's bytes between two offsets added. */
  ghost predicate Copied(was: Bytes, local: Bytes, block: Bytes, from: nat, to: nat) {
    from <= to <= |block| && local == was + block[from..to]
  }

  lemma CopiedMore(remote: Remote, index: int, i: nat, block: Bytes, was: Bytes, local: Bytes, from: nat, to: nat)
    requires i < |Servers(remote, index)| && Reply(remote, index, i, to).Data?
    requires Truthful(remote, index, block) && Copied(was, local, block, from, to)
    ensures Copied(was, local + Reply(remote, index, i, to).data, block, from, to + remote.batch)
  {
    var next := to + remote.batch;
    assert block[from..next] == block[from..to] + block[to..next];
  }

  lemma CopiedOn(was: Bytes, mid: Bytes, local: Bytes, block: Bytes, start: nat, to: nat)
    requires Copied(was, mid, block, 0, start) && Copied(mid, local, block, start, to)
    ensures Copied(was, local, block, 0, to)
  {
    assert block[0..to] == block[0..start] + block[start..to];
  }

  lemma NextBatch(offset: nat, batch: nat)
    requires 0 < batch && offset % batch == 0
    ensures (offset + batch) % batch == 0
  {
    Quotient(offset + batch, offset / batch + 1, 0, batch);
  }

  class FileDownloader {
    var local: Bytes

    constructor ()
      ensures local == []
    {
      local := [];
    }

    /** Reads from one server until it fails or the block is complete. */
    method ReadOn(remote: Remote, index: int, i: nat, size: int, start: nat, ghost block: Bytes) returns (offset: nat)
      requires 0 < remote.batch && i < |Servers(remote, index)| && start % remote.batch == 0
      modifies this
      ensures start <= offset && offset % remote.batch == 0
      ensures Truthful(remote, index, block) && start <= |block| ==> Copied(old(local), local, block, start, offset)
      ensures Healthy(remote, index, i, size) ==> size <= offset
    {
      offset := start;
      assert start <= |block| ==> Copied(old(local), local, block, start, start);
      while offset < size
        invariant start <= offset && offset % remote.batch == 0
        invariant Truthful(remote, index, block) && start <= |block| ==> Copied(old(local), local, block, start, offset)
        decreases size - offset
      {
        var reply := Reply(remote, index, i, offset);
        if reply.Failed? {
          break;
        }
        if Truthful(remote, index, block) && start <= |block| {
          CopiedMore(remote, index, i, block, old(local), local, start, offset);
        }
        NextBatch(offset, remote.batch);
        local := local + reply.data;
        offset := offset + |reply.data|;
      }
    }

    method GetBlock(remote: Remote, index: int, size: int, ghost block: Bytes) returns (ok: bool)
      requires 0 < remote.batch
      modifies this
      ensures Truthful(remote, index, block) && size == |block| ==>
                old(local) <= local <= old(local) + block && (ok ==> local == old(local) + block)
      ensures (exists i :: Healthy(remote, index, i, size)) ==> ok
    {
      if remote.eps(index).None? {
        return false;
      }
      var eps := remote.eps(index).value;
      var offset: nat := 0;
      ghost var truthful := Truthful(remote, index, block) && size == |block|;
      assert Copied(local, local, block, 0, 0);
      for i := 0 to |eps|
        invariant offset % remote.batch == 0 && (0 < i ==> offset < size)
        invariant truthful ==> Copied(old(local), local, block, 0, offset)
        invariant forall j :: 0 <= j < i && Healthy(remote, index, j, size) ==> size <= offset
      {
        if offset >= size {
          return true;
        }
        if remote.connects(index, i) {
          ghost var start, mid := offset, local;
          offset := ReadOn(remote, index, i, size, offset, block);
          if truthful {
            CopiedOn(old(local), mid, local, block, start, offset);
          }
          if offset >= size {
            return true;
          }
        }
      }
      return false;
    }

    /** One turn of the loop over the blocks. */
    method GetNext(remote: Remote, index: nat, blockCount: nat, ghost content: Bytes) returns (ok: bool)
      requires 0 < remote.batch && 0 < remote.blockSize && 0 <= remote.size
      requires blockCount == CalcBlockCount(remote.size, remote.blockSize) && 1 <= index <= blockCount
      modifies this
      ensures AllTruthful(remote, content) && Downloaded(old(local), content, remote.blockSize, index) ==>
                local <= content && (ok ==> Downloaded(local, content, remote.blockSize, index + 1))
      ensures HealthyBlock(remote, index) ==> ok
    {
      ghost var truthful, was := AllTruthful(remote, content), local;
      ghost var block := if truthful then BlockOf(content, remote.blockSize, index) else [];
      ok := GetBlock(remote, index, BlockLength(remote.size, remote.blockSize, index), block);
      if truthful && Downloaded(was, content, remote.blockSize, index) {
        OneMoreBlock(was, local, content, remote.blockSize, index);
      }
    }

    /** Success: the local file is the remote one. Failure: what was written is a prefix of it. And one
        healthy server for each block is enough, whatever the others do. */
    method Start(remote: Remote, ghost content: Bytes) returns (ok: bool)
      requires 0 < remote.batch
      modifies this
      ensures ok ==> 0 <= remote.size && remote.blockSize != 0
      ensures remote.blockSize != 0 && AllTruthful(remote, content) ==>
                if ok then local == content else local <= content
      ensures remote.blockSize != 0 && AllHealthy(remote) ==> ok
    {
      if remote.size < 0 || remote.blockSize == 0 {
        return false;
      }
      ghost var truthful := AllTruthful(remote, content);
      local := [];
      if 0 < remote.size {
        var blockCount := remote.size / remote.blockSize + if remote.size % remote.blockSize == 0 then 0 else 1;
        for index := 1 to blockCount + 1
          invariant truthful ==> Downloaded(local, content, remote.blockSize, index)
        {
          ok := GetNext(remote, index, blockCount, content);
          if !ok {
            return;
          }
        }
      }
      ok := true;
    }
  }

  /** All blocks before `index` are there. */
  ghost predicate Downloaded(local: Bytes, content: Bytes, blockSize: nat, index: nat)
    requires 0 < blockSize && 1 <= index <= CalcBlockCount(|content|, blockSize) + 1
  {
    local == content[..Reach(|content|, blockSize, index - 1)]
  }

  /** Where block `n` ends. */
  function Reach(size: nat, blockSize: nat, n: nat): (r: nat)
    requires 0 < blockSize && n <= CalcBlockCount(size, blockSize)
    ensures r <= size
  {
    if n == 0 then 0
    else
      BlockBoundsAt(size, blockSize, n);
      if n == CalcBlockCount(size, blockSize) then size else n * blockSize
  }

  lemma OneMoreBlock(was: Bytes, local: Bytes, content: Bytes, blockSize: nat, index: nat)
    requires 0 < blockSize && 1 <= index <= CalcBlockCount(|content|, blockSize)
             && Downloaded(was, content, blockSize, index)
    requires var block := BlockOf(content, blockSize, index); was <= local <= was + block
    ensures local <= content
    ensures local == was + BlockOf(content, blockSize, index) ==> Downloaded(local, content, blockSize, index + 1)
  {
    BlockBoundsAt(|content|, blockSize, index);
    var from, to := Reach(|content|, blockSize, index - 1), Reach(|content|, blockSize, index);
    assert from == (index - 1) * blockSize;
    assert was + BlockOf(content, blockSize, index) == content[..to];
    assert local <= content[..to];
  }
}
