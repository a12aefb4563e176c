/** Division facts about whole chunks and whole blocks. */
module Arith {
  lemma MulMonotone(a: int, b: int, m: nat)
    requires a <= b
    ensures a * m <= b * m
  {
  }

  lemma Quotient(x: nat, q: int, r: nat, m: nat)
    requires x == q * m + r && r < m
    ensures x / m == q && x % m == r
  {
    var q', r' := x / m, x % m;
    assert x == q' * m + r';
    if q < q' {
      MulMonotone(q + 1, q', m);
    } else if q' < q {
      MulMonotone(q' + 1, q, m);
    }
  }

  lemma WholeChunkFits(size: nat, offset: nat, chunk: nat)
    requires 0 < chunk && size % chunk == 0 && offset % chunk == 0 && offset < size
    ensures offset + chunk <= size && (offset + chunk) % chunk == 0
    ensures offset / chunk < size / chunk
  {
    var q, r := size / chunk, offset / chunk;
    assert size == q * chunk && offset == r * chunk;
    if q <= r {
      MulMonotone(q, r, chunk);
      assert false;
    }
    MulMonotone(r + 1, q, chunk);
    assert offset + chunk == (r + 1) * chunk;
    Quotient(offset + chunk, r + 1, 0, chunk);
  }

  lemma ChunkIndex(size: nat, i: nat, chunk: nat)
    requires 0 < chunk && size % chunk == 0 && i < size
    ensures i / chunk < size / chunk
  {
    if size / chunk <= i / chunk {
      MulMonotone(size / chunk, i / chunk, chunk);
      assert false;
    }
  }

  lemma SameChunk(i: nat, offset: nat, chunk: nat)
    requires 0 < chunk && offset % chunk == 0
    ensures i / chunk == offset / chunk <==> offset <= i < offset + chunk
  {
    var q := offset / chunk;
    assert offset == q * chunk;
    if offset <= i < offset + chunk {
      Quotient(i, q, i - offset, chunk);
    }
  }

  /** If data of `size` bytes in block `j` ends at or past the start of block `k`, then `j` is not
      before `k - 1`, and a block `k - 1` that does is full. */
  lemma BlockOfPosition(j: nat, k: nat, size: nat, block: nat)
    requires 1 <= j && 1 <= k && 0 < block && size <= block
    requires (k - 1) * block <= (j - 1) * block + size
    ensures k - 1 <= j
    ensures j == k - 1 ==> size == block
  {
    assert (k - 1) * block == (k - 2) * block + block;
    assert j * block == (j - 1) * block + block;
    if j < k - 1 {
      MulMonotone(j, k - 2, block);
      assert false;
    }
  }
}
