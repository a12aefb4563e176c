/** The master's block object, updated in place and proved against MasterSpec. */
module MasterBlock {
  import opened Common
  import opened Spec = MasterSpec

  class Block {
    var version: int
    var expectVersion: int
    var lease: int
    var size: nat
    var chunkServer: seq<Replica>

    ghost function State(): Master
      reads this
    {
      Master(version, expectVersion, lease, size, chunkServer)
    }

    constructor ()
      ensures State() == NewMaster
    {
      version, expectVersion, lease, size, chunkServer := 0, 0, 0, 0, [];
    }

    method FindMainReplica(usable: set<int>, now: int) returns (r: Option<nat>)
      ensures r == MainReplica(chunkServer, version, usable, now)
    {
      var mainReplica: Option<nat> := None;
      var lowerReplica: Option<nat> := None;
      for i := 0 to |chunkServer|
        invariant mainReplica.None? ==> forall j :: 0 <= j < i ==>
                  !(chunkServer[j].version == version && chunkServer[j].lease > now)
        invariant mainReplica.Some? ==> mainReplica.value < i && chunkServer[mainReplica.value].server in usable
        invariant mainReplica.Some? ==>
                  chunkServer[mainReplica.value].version == version && chunkServer[mainReplica.value].lease > now
        invariant mainReplica.Some? ==> forall j :: 0 <= j < mainReplica.value ==>
                  !(chunkServer[j].version == version && chunkServer[j].lease > now)
        invariant mainReplica.None? && lowerReplica.None? ==> forall j :: 0 <= j < i ==>
                  !(chunkServer[j].version == version && chunkServer[j].server in usable)
        invariant lowerReplica.Some? ==>
                  && lowerReplica.value < i && chunkServer[lowerReplica.value].version == version
                  && chunkServer[lowerReplica.value].server in usable
        invariant lowerReplica.Some? ==> forall j :: 0 <= j < lowerReplica.value ==>
                    !(chunkServer[j].version == version && chunkServer[j].server in usable
                      && chunkServer[j].lease <= now)
      {
        if chunkServer[i].version != version {
          continue;
        }
        if mainReplica.Some? {
          break;
        }
        if chunkServer[i].lease > now {
          if chunkServer[i].server !in usable {
            return None;
          }
          mainReplica := Some(i);
        } else if lowerReplica.None? && chunkServer[i].server in usable {
          lowerReplica := Some(i);
        }
      }
      r := if mainReplica.Some? then mainReplica else lowerReplica;
    }

    method Write(now: int, usable: set<int>, distributed: seq<int>, writeLease: nat)
      returns (main: Option<nat>, re: seq<int>)
      modifies this
      ensures Grant(State(), main, re) == Spec.Write(old(State()), now, usable, distributed, writeLease)
    {
      if chunkServer == [] {
        chunkServer := Fresh(distributed);
      }
      main := FindMainReplica(usable, now);
      re := [];
      if main.Some? {
        var server := chunkServer[main.value].server;
        var tick := chunkServer[main.value].lease;
        if tick <= now {
          tick := now + writeLease;
          chunkServer := chunkServer[main.value := chunkServer[main.value].(lease := tick)];
          lease := tick;
          expectVersion := NextVersion(version);
        }
        re := OtherServers(chunkServer, server);
      }
    }

    static method OtherServers(replicas: seq<Replica>, server: int) returns (re: seq<int>)
      ensures re == Others(replicas, server) && AreTheOthers(re, replicas, server)
    {
      re := [];
      for i := 0 to |replicas|
        invariant re + Others(replicas[i..], server) == Others(replicas, server)
      {
        OthersNext(replicas, i, server, re);
        if replicas[i].server != server {
          re := re + [replicas[i].server];
        }
      }
      OthersOfNone(replicas, server, re);
      OthersAreTheOthers(replicas, server);
    }

    method UpdateReplica(server: int, version: int, size: nat, fault: bool) returns (grown: nat)
      modifies this
      ensures (State(), grown) == Spec.UpdateReplica(old(State()), server, version, size, fault)
    {
      var i := First(chunkServer, (r: Replica) => r.server == server);
      if i.Some? {
        chunkServer := chunkServer[i.value := chunkServer[i.value].(version := version, fault := fault)];
        if !fault {
          if version > this.version {
            this.version := version;
          }
          if version > expectVersion {
            expectVersion := version;
          }
          if this.size < size {
            this.size := size;
            return size;
          }
        }
      }
      return 0;
    }

    method ReportReplica(server: int, version: int, size: nat, fault: bool) returns (grown: nat)
      modifies this
      ensures (State(), grown) == Spec.ReportReplica(old(State()), server, version, size, fault)
    {
      var i := First(chunkServer, (r: Replica) => r.server == server);
      if i.None? {
        i := Some(|chunkServer|);
        chunkServer := chunkServer + [Replica(server, 0, 0, false)];
      }
      chunkServer := chunkServer[i.value := chunkServer[i.value].(version := version, fault := fault)];
      if !fault {
        if version > this.version {
          this.version := version;
        }
        if version > expectVersion {
          expectVersion := version;
        }
        if this.size < size {
          this.size := size;
          return size;
        }
      }
      return 0;
    }
  }

  /** One turn of the collecting loop. */
  lemma OthersNext(replicas: seq<Replica>, i: nat, server: int, re: seq<int>)
    requires i < |replicas|
    ensures re + Others(replicas[i..], server) ==
              (if replicas[i].server != server then re + [replicas[i].server] else re)
              + Others(replicas[i + 1..], server)
  {
    assert replicas[i..][1..] == replicas[i + 1..] && replicas[i..][0] == replicas[i];
  }

  lemma OthersOfNone(replicas: seq<Replica>, server: int, re: seq<int>)
    ensures re + Others(replicas[|replicas|..], server) == re
  {
  }
}
