/** Small vocabulary shared by the other modules: optional values, bytes and the file operations
    of a chunk server's disk. */
module Common {
  datatype Option<+T> = None | Some(value: T)

  newtype byte = x: int | 0 <= x < 256

  type Bytes = seq<byte>

  function Zeros(n: nat): (z: Bytes)
    ensures |z| == n
  {
    seq(n, _ => 0)
  }

  /** Positional write: bytes between the old end of the file and `offset` become zero. */
  function Splice(file: Bytes, offset: nat, data: Bytes): (r: Bytes)
    ensures data == [] ==> r == file
    ensures data != [] ==> |r| == if |file| < offset + |data| then offset + |data| else |file|
    ensures data != [] ==> r[offset..offset + |data|] == data
    ensures forall i :: 0 <= i < |file| && (i < offset || offset + |data| <= i) ==> r[i] == file[i]
  {
    if data == [] then file else
      var padded := if |file| < offset + |data| then file + Zeros(offset + |data| - |file|) else file;
      padded[..offset] + data + padded[offset + |data|..]
  }

  /** Truncation or zero extension to exactly `size` bytes. */
  function ResizeFile(file: Bytes, size: nat): (r: Bytes)
    ensures |r| == size
    ensures forall i :: 0 <= i < size && i < |file| ==> r[i] == file[i]
  {
    if size <= |file| then file[..size] else file + Zeros(size - |file|)
  }

  function Max(a: int, b: int): int {
    if a < b then b else a
  }
}
