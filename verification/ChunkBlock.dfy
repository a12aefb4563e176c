/** A chunk server's block as it updates its own fields and file, proved against CopySpec. */
module ChunkBlock {
  import opened Common
  import opened Spec = CopySpec

  class BlockFile {
    var bytes: Bytes

    constructor ()
      ensures bytes == []
    {
      bytes := [];
    }
  }

  class RecoverController {
    var version: int
    var size: nat
    var dataFlags: seq<bool>
    const batch: nat
    const file: BlockFile

    ghost function State(): Recovery
      reads this
    {
      Recovery(version, size, dataFlags)
    }

    constructor (version: int, size: nat, batch: nat, file: BlockFile)
      requires batch > 0
      ensures State() == NewRecovery(version, size, batch)
      ensures this.file == file && this.batch == batch
    {
      this.version, this.size, this.batch, this.file := version, size, batch, file;
      dataFlags := seq(size / batch, _ => false);
    }

    /** Restarts the recovery at a higher version and forgets the chunks received so far. */
    method Resize(version: int, size: nat) returns (restarted: bool)
      requires batch > 0
      modifies this
      ensures restarted <==> old(this.version) < version
      ensures State() == if restarted then NewRecovery(version, size, batch) else old(State())
    {
      if this.version < version {
        this.version := version;
        this.size := size;
        dataFlags := seq(size / batch, _ => false);
        return true;
      }
      return false;
    }

    method Recover(version: int, offset: nat, data: Bytes) returns (ok: bool)
      requires batch > 0
      requires version == this.version ==> offset / batch < |dataFlags|
      modifies this, file
      ensures ok <==> version == this.version
      ensures this.version == old(this.version) && size == old(size)
      ensures dataFlags == if ok then old(dataFlags)[offset / batch := true] else old(dataFlags)
      ensures file.bytes == if ok then Splice(old(file.bytes), offset, data) else old(file.bytes)
    {
      if this.version == version {
        file.bytes := Splice(file.bytes, offset, data);
        dataFlags := dataFlags[offset / batch := true];
        return true;
      }
      return false;
    }

    /** The search for a flag not set reaches the end exactly if every chunk has been received. */
    method CheckIsComplete(version: int) returns (complete: bool)
      ensures complete <==> this.version == version && AllTrue(dataFlags)
    {
      if this.version != version {
        return false;
      }
      var i := 0;
      while i < |dataFlags| && dataFlags[i]
        invariant 0 <= i <= |dataFlags| && forall j :: 0 <= j < i ==> dataFlags[j]
      {
        i := i + 1;
      }
      complete := i == |dataFlags|;
    }
  }

  class Block {
    var version: int
    var size: nat
    var recover: RecoverController?
    const file: BlockFile
    const batch: nat
    const blockSize: nat

    ghost predicate Valid()
      reads this, recover
    {
      batch > 0 && (recover != null ==> recover.file == file && recover.batch == batch)
    }

    ghost function State(): Copy
      reads this, recover, file
    {
      Copy(version, size, file.bytes, if recover == null then None else Some(recover.State()))
    }

    constructor (batch: nat, blockSize: nat)
      requires batch > 0
      ensures Valid() && State() == NewCopy && fresh(file)
      ensures this.batch == batch && this.blockSize == blockSize
    {
      this.batch, this.blockSize, version, size, recover := batch, blockSize, 0, 0, null;
      file := new BlockFile();
    }

    method Read(offset: nat, size: nat) returns (reply: ReadReply)
      requires Valid()
      ensures reply == Spec.Read(State(), offset, size)
    {
      if this.size < offset + size {
        return Failed(OutOfRange);
      }
      if recover != null {
        return Failed(Recovering);
      }
      if |file.bytes| < offset + size {
        return Failed(OutOfRange);
      }
      return Data(file.bytes[offset..offset + size]);
    }

    method Write(expected: int, newVersion: int, offset: nat, data: Bytes, strict: bool) returns (code: Code)
      requires Valid()
      modifies this`version, file
      ensures Valid()
      ensures Outcome(State(), code) == Spec.Write(old(State()), expected, newVersion, offset, data, strict)
    {
      if size < offset + |data| {
        return OutOfRange;
      }
      if recover != null {
        return Recovering;
      }
      if strict {
        if version != expected {
          return VersionCheckFailed;
        }
      } else {
        if version < expected {
          return VersionCheckFailed;
        }
      }
      file.bytes := Splice(file.bytes, offset, data);
      if strict {
        version := newVersion;
      } else {
        if version < newVersion {
          version := newVersion;
        } else {
          version := version + 1;
        }
      }
      return Success;
    }

    method Append(expected: int, newVersion: int, data: Bytes, strict: bool) returns (code: Code)
      requires Valid()
      modifies this`version, this`size, file
      ensures Valid()
      ensures Outcome(State(), code) == Spec.Append(old(State()), expected, newVersion, data, strict, blockSize)
    {
      if recover != null {
        return Recovering;
      }
      if strict {
        if version != expected {
          return VersionCheckFailed;
        }
      } else {
        if version < expected {
          return VersionCheckFailed;
        }
      }
      if size + |data| > blockSize {
        return Full;
      }
      file.bytes := file.bytes + data;
      size := size + |data|;
      if strict {
        version := newVersion;
      } else {
        if version < newVersion {
          version := newVersion;
        } else {
          version := version + 1;
        }
      }
      return Success;
    }

    method Resize(version: int, size: nat)
      requires Valid()
      modifies this`recover, recover, file
      ensures Valid()
      ensures State() == Spec.Resize(old(State()), version, size, batch)
    {
      if this.version >= version {
        return;
      }
      if recover == null {
        recover := new RecoverController(version, size, batch, file);
      } else {
        var restarted := recover.Resize(version, size);
        if !restarted {
          return;
        }
      }
      file.bytes := ResizeFile(file.bytes, size);
    }

    method RecoverData(version: int, offset: nat, data: Bytes)
      requires Valid()
      requires recover != null && recover.version == version ==> offset / batch < |recover.dataFlags|
      modifies recover, file
      ensures Valid()
      ensures State() == Spec.RecoverData(old(State()), version, offset, data, batch)
    {
      if recover != null {
        var _ := recover.Recover(version, offset, data);
      }
    }

    method CompleteRecover(version: int) returns (done: bool)
      requires Valid()
      modifies this
      ensures Valid()
      ensures done <==> RecoveryDone(old(State()), version)
      ensures State() == Spec.CompleteRecover(old(State()), version)
    {
      if recover != null {
        var complete := recover.CheckIsComplete(version);
        if complete {
          this.version := version;
          size := recover.size;
          recover := null;
          return true;
        }
      }
      return false;
    }
  }
}
