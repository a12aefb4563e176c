/** The value of one chunk server's copy of a block: version and size, the block file, and the
    recovery in progress, if any; and what each operation does to such a value. */
module CopySpec {
  import opened Common

  datatype Code =
    | Success | OutOfRange | Recovering | VersionCheckFailed | Full
    | LeaseExpired | CheckSizeFailed | BlockNotExist

  datatype Recovery = Recovery(version: int, size: nat, flags: seq<bool>)

  datatype Copy = Copy(version: int, size: nat, file: Bytes, recovery: Option<Recovery>)

  datatype Outcome = Outcome(copy: Copy, code: Code)

  const NewCopy: Copy := Copy(0, 0, [], None)

  predicate AllTrue(flags: seq<bool>) {
    forall i :: 0 <= i < |flags| ==> flags[i]
  }

  /** Strict writes come from the primary, non-strict ones from a client holding a lease. */
  predicate VersionAccepted(version: int, expected: int, strict: bool) {
    if strict then version == expected else expected <= version
  }

  function Bump(version: int, newVersion: int, strict: bool): int {
    if strict || version < newVersion then newVersion else version + 1
  }

  function Write(c: Copy, expected: int, newVersion: int, offset: nat, data: Bytes, strict: bool): Outcome {
    if c.size < offset + |data| then Outcome(c, OutOfRange)
    else if c.recovery.Some? then Outcome(c, Recovering)
    else if !VersionAccepted(c.version, expected, strict) then Outcome(c, VersionCheckFailed)
    else Outcome(c.(version := Bump(c.version, newVersion, strict), file := Splice(c.file, offset, data)), Success)
  }

  function Append(c: Copy, expected: int, newVersion: int, data: Bytes, strict: bool, blockSize: nat): Outcome {
    if c.recovery.Some? then Outcome(c, Recovering)
    else if !VersionAccepted(c.version, expected, strict) then Outcome(c, VersionCheckFailed)
    else if c.size + |data| > blockSize then Outcome(c, Full)
    else
      var version := Bump(c.version, newVersion, strict);
      Outcome(c.(version := version, file := c.file + data, size := c.size + |data|), Success)
  }

  datatype ReadReply = Data(data: Bytes) | Failed(code: Code)

  /** The file may be shorter than the recorded size only if the disk lost data. */
  function Read(c: Copy, offset: nat, size: nat): ReadReply {
    if c.size < offset + size then Failed(OutOfRange)
    else if c.recovery.Some? then Failed(Recovering)
    else if |c.file| < offset + size then Failed(OutOfRange)
    else Data(c.file[offset..offset + size])
  }

  function NewRecovery(version: int, size: nat, batch: nat): Recovery
    requires batch > 0
  {
    Recovery(version, size, seq(size / batch, _ => false))
  }

  function Resize(c: Copy, version: int, size: nat, batch: nat): Copy
    requires batch > 0
  {
    if version <= c.version then c
    else if c.recovery.Some? && version <= c.recovery.value.version then c
    else c.(recovery := Some(NewRecovery(version, size, batch)), file := ResizeFile(c.file, size))
  }

  /** The flag of a chunk outside the announced size is not recorded here; the class asks its
      caller to stay inside it. */
  function RecoverData(c: Copy, version: int, offset: nat, data: Bytes, batch: nat): Copy
    requires batch > 0
  {
    if c.recovery.None? || c.recovery.value.version != version then c
    else
      var r := c.recovery.value;
      var flags := if offset / batch < |r.flags| then r.flags[offset / batch := true] else r.flags;
      c.(recovery := Some(r.(flags := flags)), file := Splice(c.file, offset, data))
  }

  predicate RecoveryDone(c: Copy, version: int) {
    c.recovery.Some? && c.recovery.value.version == version && AllTrue(c.recovery.value.flags)
  }

  function CompleteRecover(c: Copy, version: int): Copy {
    if RecoveryDone(c, version)
    then c.(version := version, size := c.recovery.value.size, recovery := None)
    else c
  }

  /** No operation ever lowers a copy's version, whatever its arguments, provided a strict write
      announces a version above the one it expects. */
  lemma VersionsOnlyGrow(c: Copy, expected: int, newVersion: int, offset: nat, data: Bytes, strict: bool,
                         blockSize: nat, version: int, size: nat, batch: nat)
    requires strict ==> expected < newVersion
    requires batch > 0
    requires c.recovery.Some? ==> c.version < c.recovery.value.version
    ensures var o := Write(c, expected, newVersion, offset, data, strict);
            o.copy.version >= c.version && (o.code == Success <==> o.copy.version > c.version)
    ensures var o := Append(c, expected, newVersion, data, strict, blockSize);
            o.copy.version >= c.version && (o.code == Success <==> o.copy.version > c.version)
    ensures CompleteRecover(c, version).version >= c.version
    ensures CompleteRecover(c, version).version > c.version <==> RecoveryDone(c, version)
    ensures var r := Resize(c, version, size, batch);
            r.recovery.Some? ==> r.version < r.recovery.value.version
  {
  }

  /** An announcement starts a recovery afresh exactly if it is for a newer version than the copy has and
      than it is already recovering to; one that is repeated or late costs nothing received so far. */
  lemma AnnouncementStartsIff(c: Copy, version: int, size: nat, batch: nat)
    requires 0 < batch
    ensures var c', newer := Resize(c, version, size, batch),
                             c.version < version && (c.recovery.Some? ==> c.recovery.value.version < version);
            if !newer then c' == c
            else && c'.version == c.version && c'.size == c.size && |c'.file| == size
                 && c'.recovery.Some? && c'.recovery.value.version == version && c'.recovery.value.size == size
                 && |c'.recovery.value.flags| == size / batch
                 && (forall i :: 0 <= i < |c'.recovery.value.flags| ==> !c'.recovery.value.flags[i])
                 && (forall i :: 0 <= i < size && i < |c.file| ==> c'.file[i] == c.file[i])
  {
  }

  /** The version that a write or append expects, as the caller states it. */
  predicate Expects(version: int, expected: int, strict: bool) {
    version == expected || (!strict && expected < version)
  }

  /** Each refusal has one cause, and of several the first in the order of the code's checks: a write
      looks at the range first, an append at the room last. A refusal changes nothing. */
  lemma RefusalsSayWhy(c: Copy, expected: int, newVersion: int, offset: nat, data: Bytes, strict: bool, blockSize: nat,
                       size: nat)
    ensures var o := Write(c, expected, newVersion, offset, data, strict);
            var fits, idle, known := offset + |data| <= c.size, c.recovery.None?, Expects(c.version, expected, strict);
            && (o.code == OutOfRange <==> !fits) && (o.code == Recovering <==> fits && !idle)
            && (o.code == VersionCheckFailed <==> fits && idle && !known)
            && (o.code == Success <==> fits && idle && known)
            && (o.code != Success ==> o.copy == c)
    ensures var o := Append(c, expected, newVersion, data, strict, blockSize);
            var idle, known := c.recovery.None?, Expects(c.version, expected, strict);
            var room := c.size + |data| <= blockSize;
            && (o.code == Recovering <==> !idle) && (o.code == VersionCheckFailed <==> idle && !known)
            && (o.code == Full <==> idle && known && !room) && (o.code == Success <==> idle && known && room)
            && (o.code != Success ==> o.copy == c)
    ensures var reply := Read(c, offset, size);
            var stored, idle := offset + size <= c.size, c.recovery.None?;
            && (reply == Failed(Recovering) <==> stored && !idle)
            && (reply == Failed(OutOfRange) <==> !stored || (idle && |c.file| < offset + size))
            && (reply.Data? || reply == Failed(Recovering) || reply == Failed(OutOfRange))
  {
  }
}
