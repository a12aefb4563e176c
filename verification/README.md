# Verified model of the file system, the coordination service, the crawler and their kernels

A Dafny 4.11 model of the parts of the repository where the reasoning is hard:

- **`ofs/`, chunk replication.** Several chunk servers hold copies of a block. A client writes to one of
  them under a lease, that server mints a 64-bit version and notifies the others, the others apply the
  write only if they hold exactly the version before it, a separate recovery protocol copies whole
  blocks, and the master hands out leases and derives the file size from reports. Every message may be
  lost, repeated and reordered. The safety claim is that equal versions mean equal bytes.
- **`zookeeper/`, the replicated log.** A leader takes one proposal at a time through logging, voting and
  commit; followers log, acknowledge and apply in order. Followers join, leave and come back.
- **`spider/`, the crawler.** One coordinator and N workers over two channels, stopping when two set
  sizes agree.
- **Kernels.** Frame reassembly in the election protocol, selector search on a document, wildcard
  matching, id generation without locks, download from several servers, and the archive of the directory
  tree.

How it is put together: where the source is a class that changes its fields, there is a class with the
same fields, and each of its methods is proved equal to a function on values (`ChunkBlock`,
`ChunkServer`, `MasterBlock`, `DataSet`, `LeadFollow`, `PeerEpoch`, `Crawler`, `VoteStream`, `Selector`,
`IdGenerator`, `FileSize`, `Downloader`). Those functions are the steps of state machines over the whole
system, and the properties are lemmas over every run. History variables (`history`, `snapshots`, `log`,
`resolved`, `drafted`, `calls`, `throws`, `unsent`, `fetched`) and the draft id in an answer are used by no
step's decision. What a run may rely on is a predicate `Allowed`, one clause per assumption; the modules
ending in `Limits`, and `BroadcastStray`, give runs in which a property fails.

Where the code promises less than one might expect, the exact condition is proved:

- a lease's first version is fresh (`FreshLeaseIff`, with `OneReportPerLeaseKeepsVersionsFresh` for what
  the master must have been told), the leaseholder keeps its place (`LeaseholderIsChosenIffUpToDate`), a
  second lease starts while one is running (`SecondLeaseStartsIff`), a recovery source sends authentic
  bytes (`SourceIsAuthenticIff`);
- truncation is on target (`TruncIsExact`), the first request of a term throws (`FirstRequestThrowsIff`),
  launching drafts throws because the lock is released twice (`LaunchThrowsIff`, `LeaderThrowsIff`), and
  the term stops for good (`TermStallsIff`, `StalledTermCommitsNothing`);
- what a client of a server that came back is told is false (`AnswerIsFalseIff`, with
  `EarlyJoinTellsFalsely` and `StalledJoinIsHarmless` for when that can come about), and a server that
  came back takes an answer for other messages (`LosesItsPlaceIff`);
- a call for the epoch returns (`ACallReturnsIff`), and all calls agree (`CallsAgreeIff`);
- a wildcard is checked as written (`PassingMeansMatchingIff`), an id is new (`NextIsLargerIff`), a packed
  id comes apart again (`UnpackIsExactIff`), the receive buffer fills up (`RoomIsLeftIff`).

The modules ending in `Progress`, and `BroadcastReplies` and `DataSetRuns`, say what must happen, without
naming the functions that the steps are made of: a call takes effect, a leader commits, a draft is sent or
refused exactly when so; a call that takes effect reaches every replica, a majority commits, whoever lags
can catch up, every draft is answered, every bill is applied once and in order, files grow to any size.

Run `dafny verify dfyconfig.toml` in this directory.

| files | subject |
|---|---|
| `Common`, `Arith` | options, bytes, file writes; division facts |
| `CopySpec`, `ChunkBlock` | one server's copy of a block |
| `NodeSpec`, `BlockCopy`, `ChunkServer` | messages, handlers, the source side of recovery |
| `MasterSpec`, `MasterBlock` | the master's record of a block and its leases |
| `Replication`, `ReplicationSafety`, `ReplicationLeases`, `ReplicationLimits`, `ReplicationProgress` | one block on all servers, every run |
| `FileGrowth`, `FileGrowthProgress`, `FileSize` | all blocks of a file; the file size |
| `DataSetSpec`, `DataSet`, `DataSetRuns` | log, uncommitted bills, state machine |
| `BroadcastSpec`, `LeadFollow` | what leader and follower do with one request or message |
| `Broadcast`, `BroadcastSafety`, `BroadcastLead`, `BroadcastTerm`, `BroadcastResults`, `BroadcastAnswers`, `BroadcastEarly`, `BroadcastLimits`, `BroadcastStray`, `BroadcastProgress`, `BroadcastReplies` | a leader's term, exceptions and misread answers included |
| `PeerEpoch`, `PeerEpochLimits` | how the epoch of a term is settled |
| `Crawler`, `CrawlerSafety`, `CrawlerResults` | the crawler |
| `VoteStream`, `Selector`, `Wildcard`, `IdGenerator`, `Downloader`, `DirectoryArchive` | kernels |

## Model

| member | source | states |
|---|---|---|
| ReplicationSafety.SameVersionSameBytes | ofs/node/block/Block.cpp:83-205 | In every reachable state, under loss, repetition and reordering, two copies that are not recovering and carry one version are equal in size and bytes, and the file is as long as recorded |
| ReplicationSafety.RecoveredCopyEqualsItsSource | ofs/node/block/Block.cpp:241-285 | A recovery that completes leaves exactly what a source held at that version, and every source held the same, whichever overlapping transfers the chunks came from |
| ReplicationSafety.ChunksStayInsideTheRecovery | ofs/node/block/Block.cpp:29-50 | The chunk flag that a delivered chunk sets always exists |
| ReplicationSafety.MintedVersionsAreFresh | ofs/node/client/ClientService.cpp:60-70 | Only client calls mint versions, each above all earlier ones across changes of primary, and what a version stands for never changes |
| ReplicationSafety.StepKeepsInv | ofs/node/node/NodeService.cpp:89-223 | Each client call, message, report, grant, copy command and clock step keeps the replication invariant |
| ReplicationSafety.MintOk | ofs/node/block/Block.cpp:121-128 | A client's write under a lease yields a version above everything minted so far and keeps the lease invariant |
| ReplicationSafety.GrantOk | ofs/master/block/Block.cpp:10-39 | Granting or repeating a lease under the conditions of `Allowed` keeps the invariant: every running lease names one server, which has the newest version or begins above everything minted |
| ReplicationSafety.FreshLeaseIff | ofs/master/block/Block.cpp:21-28 | In every state of the invariant, the version with which a server would begin a new lease is above everything minted exactly if that server has the newest version or the master has seen the newest high word |
| ReplicationLeases.OneReportPerLeaseKeepsVersionsFresh | ofs/master/block/Block.h:53-55 | In every reachable state: if the master has seen a version of every lease that minted any, and none has minted 2^32 in a row, it has seen the newest high word, because minted versions leave no gap above the lease's first one |
| ReplicationLeases.OrderlyRunsAreSafe | ofs/master/block/Block.cpp:10-39 | End to end: after any run in which leases do not overlap, each is reported before the next starts, and none mints 2^32 versions, two copies that are not recovering and carry one version are equal |
| ReplicationLimits.UnreportedLeaseBreaksSafety | ofs/master/block/Block.cpp:21-28 | If no write of a lease that ran out has been reported, the next primary mints the same version for other bytes |
| ReplicationLimits.LaggingLeaseholderIsPassedOver | ofs/master/block/Block.cpp:107-121 | A reachable state in which the master grants a second lease while the first still runs, because the leaseholder's own report is late |
| ReplicationLimits.TwoRunningLeasesBreakSafety | ofs/master/block/Block.cpp:107-121 | From there two idle copies get one version and different bytes |
| ReplicationLimits.RecoveringSourceBreaksSafety | ofs/node/block/Block.cpp:218-239 | A server asked to copy while it is recovering itself makes the same happen |
| ReplicationLimits.SourceIsAuthenticIff | ofs/node/block/BlockCopyToAction.cpp:17-63 | What a server sends when asked to copy is authentic, for every history its copy is consistent with, exactly if it is not recovering, or recovering to another size, or its copy is empty |
| ReplicationProgress.WriteTakesEffectIff | ofs/node/client/ClientService.cpp:37-70 | In every reachable state a client's overwrite gives the primary a new version exactly if the lease is running, the data is one batch, and the primary is not recovering, is not behind the lease and has the bytes to be replaced |
| ReplicationProgress.AppendTakesEffectIff | ofs/node/block/Block.cpp:144-205 | An append does exactly if the lease is running, the data is one batch, and the primary is not recovering, is not behind the lease and has room for it: the batch that fills the block is accepted |
| ReplicationProgress.WriteReplacesTheBytes | ofs/node/block/Block.cpp:83-142 | Byte by byte, an overwrite that takes effect changes what it names and nothing else, and one without effect changes nothing |
| ReplicationProgress.AppendAddsTheBytes | ofs/node/block/Block.cpp:144-205 | The data of an append that takes effect come after what was there |
| ReplicationProgress.ReadIsAnsweredIff | ofs/node/block/Block.cpp:52-81 | In every reachable state a read is answered exactly if the copy is not recovering and has all the bytes, with those bytes |
| ReplicationProgress.WriteReachesTheServers | ofs/node/node/NodeService.cpp:89-99 | An overwrite that takes effect is reported to the master, and sends every server of the lease a message that, whenever it arrives at a copy equal to the old one, makes it equal to the new one and has it reported |
| ReplicationProgress.AppendReachesTheServers | ofs/node/node/NodeService.cpp:101-110 | The same for an append, a missing copy counting as an empty one |
| ReplicationProgress.LeasedCallReachesEveryReplica | ofs/master/block/Block.cpp:30-33 | A client that passes on the lease it was given, started or repeated, reaches every replica that was on the master's list, whatever has happened since |
| ReplicationProgress.PlacedServersAreNamed | ofs/master/block/Block.cpp:30-33 | A server on which the block has been placed is named to every client given a lease from then on |
| ReplicationProgress.BlockReportsAreLearned | ofs/node/block/BlockManager.cpp:52-66 | A server's periodic report that arrives makes server, version and size known to the master, even if the server was unknown |
| ReplicationProgress.LaggingServerCanCatchUp | ofs/node/block/BlockCopyToAction.cpp:17-63 | From every reachable state there is a run that makes an older copy equal to an idle one and has it reported |
| CopySpec.VersionsOnlyGrow | ofs/node/block/Block.cpp:83-285 | No operation lowers a version; a write or append raises it exactly when it succeeds, a completion exactly when it was due |
| CopySpec.RefusalsSayWhy | ofs/node/block/Block.cpp:52-205 | For writes, appends and reads, the exact cause of each failure code; a refusal changes nothing |
| CopySpec.AnnouncementStartsIff | ofs/node/block/Block.cpp:241-261 | A recovery is started afresh, with no chunk counted as received, exactly by an announcement of a newer version than the copy has or is recovering to |
| NodeSpec.ClientsAreToldWhy | ofs/node/client/ClientService.cpp:37-105 | The exact cause of each failure code of the client handlers, and that a refusal sends nothing |
| ChunkBlock.Block.Write | ofs/node/block/Block.cpp:83-142 | In place: same checks in the same order, bytes, version rule, and nothing else changes |
| ChunkBlock.Block.Append | ofs/node/block/Block.cpp:144-205 | In place: same checks, bytes, size, version rule |
| ChunkBlock.Block.Read | ofs/node/block/Block.cpp:52-81 | The bytes asked for, or the failure the code reports |
| ChunkBlock.Block.Resize | ofs/node/block/Block.cpp:241-261 | Starts or restarts a recovery only for a newer version, with all flags cleared and the file at its new size |
| ChunkBlock.Block.RecoverData | ofs/node/block/Block.cpp:263-267 | A chunk of the current recovery is written and flagged, any other is ignored |
| ChunkBlock.Block.CompleteRecover | ofs/node/block/Block.cpp:269-285 | Succeeds exactly when the version matches and every flag is set |
| ChunkBlock.RecoverController.CheckIsComplete | ofs/node/block/Block.h:26-28 | The search for a flag that is not set finds none exactly if all are set, and the version must match |
| BlockCopy.Start | ofs/node/block/BlockCopyToAction.cpp:17-63 | The loop sends the announcement, the file's chunks in order and the completion, or nothing for a file of the wrong size |
| BlockCopy.TransferReproducesTheSource | ofs/node/block/BlockCopyToAction.cpp:17-63 | Delivered in order to an older copy, the messages make it equal to the source |
| BlockCopy.ChunksFillTheFile | ofs/node/block/BlockCopyToAction.cpp:37-53 | Receiving the chunks from an offset on fills the rest of the file and sets the rest of the flags |
| NodeSpec.ChunksAreAuthentic | ofs/node/block/BlockCopyToAction.cpp:37-53 | Every chunk sent is a whole aligned slice of the file under its version |
| NodeSpec.CopyIsSentIff | ofs/node/block/BlockCopyToAction.cpp:17-63 | A copy is sent exactly if the file has its recorded size, in whole batches, between an announcement of that size and a completion |
| ChunkServer.Server.ClientWrite | ofs/node/client/ClientService.cpp:37-70 | Lease and size checks, the write, and on success the notifications with the version before and after and the report |
| ChunkServer.Server.ClientAppend | ofs/node/client/ClientService.cpp:72-105 | The same for an append, creating the block if need be |
| ChunkServer.Server.OnMessage | ofs/node/node/NodeService.cpp:138-223 | The handlers of write, append and recovery messages: new copy and messages sent |
| ChunkServer.Server.SendAll | ofs/node/node/NodeService.cpp:97-98 | One envelope for each replica named by the lease, in order |
| ChunkServer.Server.StartRecover | ofs/node/block/Block.cpp:218-239 | Copies under the version and lease checks |
| MasterSpec.NextVersionIsAbove | ofs/master/block/Block.h:53-55 | A new lease's version is above a minted one exactly if the master has seen as high a high word |
| MasterSpec.OneReportPerLeaseSuffices | ofs/master/block/Block.h:53-55 | With fewer than 2^32 writes in a lease, one report of any of them makes the next lease fresh |
| MasterSpec.NextVersionIsLeast | ofs/master/block/Block.h:53-55 | A lease begins at the least multiple of 2^32 above the newest version seen |
| MasterSpec.MainReplicaIff | ofs/master/block/Block.cpp:103-127 | For any number of running leases, which replica is chosen: the first up-to-date leaseholder if its server is usable, and if there is none the first up-to-date replica on a usable server |
| MasterSpec.AnswerNamesEveryReplica | ofs/master/block/Block.cpp:10-39 | Whether a lease is started or repeated, the answer names an up-to-date replica on a usable server with a running lease, and all the replicas on other servers, each in order and as often as it occurs |
| MasterSpec.ReportsAreRecorded | ofs/master/block/Block.cpp:41-94 | What a report changes: the first replica of its server, and the newest version and largest size unless it tells of a fault |
| MasterSpec.LeaseholderIsChosenIffUpToDate | ofs/master/block/Block.cpp:103-127 | The leaseholder keeps the block exactly if its recorded version is the newest seen |
| MasterSpec.SecondLeaseStartsIff | ofs/master/block/Block.cpp:10-39 | While one replica's lease is running, another is started exactly if the holder's recorded version lags and a replica with the newest one is on a usable server; it goes to another replica and leaves the holder's lease alone |
| MasterBlock.Block.FindMainReplica | ofs/master/block/Block.cpp:103-127 | The loop finds the up-to-date leaseholder, or the first usable up-to-date replica, or nothing if the leaseholder's server is down |
| MasterBlock.Block.Write | ofs/master/block/Block.cpp:10-39 | The whole new record, the chosen replica and the others |
| MasterBlock.Block.UpdateReplica | ofs/master/block/Block.cpp:41-65 | The whole new record and the size if it grew |
| MasterBlock.Block.ReportReplica | ofs/master/block/Block.cpp:67-94 | The same, adding an unknown replica |
| FileGrowth.SizesAreWholeBatches | ofs/node/block/Block.cpp:167-182 | Every copy of every block holds whole batches and at most a block |
| FileGrowth.BlocksFillInOrder | ofs/master/client/ClientService.cpp:249-251 | A block holds data somewhere only if every earlier block has been full at some server, even when the master's file size lags |
| FileGrowth.FileSizeIsBacked | ofs/master/chunk/DataNodeService.cpp:117-124 | The file size is the end of data some server held, with all earlier blocks filled |
| FileGrowth.SizeMeansFull | ofs/master/file/FileSystem.h:37-47 | If the file size reaches past a block, that block has been full |
| FileGrowth.FullBefore | ofs/master/file/FileSystem.h:41-43 | Order of filling carries over any number of blocks |
| FileGrowthProgress.AppendsGoToTheEnd | ofs/master/file/FileSystem.h:41-43 | An append goes to the block in which the byte after the file's last one lies |
| FileGrowthProgress.WritesStayInTheFile | ofs/master/client/ClientService.cpp:195-202 | A block can be overwritten exactly if the file reaches into it and the master has it |
| FileGrowthProgress.FileSizeCoversTheBlocks | ofs/master/chunk/DataNodeService.cpp:88-151 | In every reachable state the file reaches to the end of what has been reported of each block |
| FileGrowthProgress.FilesGrowToAnySize | ofs/master/client/ClientService.cpp:235-280 | For every configuration and every number of batches a state is reachable in which the file has exactly that size, with every block before its end full and the rest in the next |
| FileSize.UpdatesTakeTheMaximum | ofs/master/file/File.h:27-40 | With any number of interleaved calls the size never falls, no call returns below its target, and in the end it is the largest of all |
| FileSize.File.UpdateSize | ofs/master/file/File.h:27-40 | Undisturbed, the loop sets the larger of the two |
| DataSetSpec.RunKeepsConsistent | zookeeper/transaction/dataset.cpp:68-122 | Over any run of proposals, commits (throwing ones included), flushes and truncations the state is the fold of the retained log over its base and ids ascend; the last id is right if every truncation was on target |
| DataSetSpec.TruncIsExact | zookeeper/transaction/dataset.cpp:179-190 | Truncation leaves log and state as after the commits up to the id; the recorded last id is right exactly if the id names a retained bill or the base |
| DataSetSpec.UndoIsExact | zookeeper/transaction/dataset.cpp:182-187 | Rolling back removes exactly the bills above the id |
| DataSetSpec.CommitKeeps | zookeeper/transaction/dataset.cpp:93-122 | A commit, with a snapshot cutting the log, without one, or failing to save one, keeps state and log in step |
| DataSetRuns.BillsAreConserved | zookeeper/transaction/dataset.cpp:68-122 | Over any run of proposals, commits and flushes, failing ones included, the bills proposed are applied each once and in order but for those still in line, and the retained log ends with those applied last |
| DataSetRuns.WhatLeavesTheLine | zookeeper/transaction/dataset.cpp:93-122 | A flush leaves nothing in line; a commit takes out the first bill exactly if it is named |
| DataSetRuns.WhatIsRetained | zookeeper/transaction/dataset.cpp:105-121 | How much of the log a commit leaves, with and without a snapshot |
| DataSet.Data.Commit | zookeeper/transaction/dataset.cpp:93-122 | In place: throws when the bill is not first in line, leaving everything as it was, or when a snapshot is due and cannot be saved, with the bill applied and the log uncut; otherwise moves it, applies it and cuts the log when that is due |
| DataSet.Data.Trunc | zookeeper/transaction/dataset.cpp:179-190 | The loop undoes from the newest bill back |
| DataSet.Data.Flush | zookeeper/transaction/dataset.cpp:225-235 | Applies every uncommitted bill in order |
| DataSet.Data.Propose | zookeeper/transaction/dataset.cpp:68-79 | Adds the bill, or leaves no trace when the log cannot be saved |
| DataSet.Data.CheckOrDrop | zookeeper/transaction/dataset.cpp:81-91 | Throws exactly when something is uncommitted, otherwise answers the machine's own PreCheck |
| BroadcastResults.FollowersTrailTheLeader | zookeeper/paxos/follow.cpp:147-193 | The committed log of every server that has joined in the term and has not lost its place in the stream, connected or dropped since, is a prefix of the leader's and its state the leader's as of then, and it does not throw; the leader holds at most one uncommitted bill |
| BroadcastResults.CaughtUpFollowerEqualsTheLeader | zookeeper/paxos/follow.cpp:147-193 | A follower that has read everything sent to it without losing its place has the leader's log, state and last id; it has the leader's uncommitted bill exactly if no throw kept that from being sent to it |
| BroadcastResults.LosesItsPlaceIff | zookeeper/paxos/follow.cpp:115-145 | In every reachable state a step makes a follower lose its place in the stream exactly if the follower reads an answer before it is up to date and a byte of the request number reads as the type of a longer message; the answer is then for a request of an earlier session |
| BroadcastResults.SmallNumbers | zookeeper/paxos/follow.cpp:115-145 | Of the request numbers below 256 these are 12 and 14; 7 makes the follower take itself for up to date, the others are skipped |
| BroadcastSpec.LaunchThrowsIff | zookeeper/paxos/lead.cpp:398-446 | Launching the next draft throws exactly if an older bill is uncommitted, or two drafts are in line and the first is refused, so that the lock is released a second time |
| BroadcastSpec.LaunchLeaves | zookeeper/paxos/lead.cpp:398-446 | Without a throw the first draft in line, if any, is logged and sent; with one, a draft is logged but unsent or gone without an answer |
| BroadcastResults.LeaderThrowsIff | zookeeper/paxos/lead.cpp:286-327 | In every reachable state a step makes the leader throw exactly if it is an acknowledgement that commits, leaves at least two drafts in line, and the first of these is refused |
| BroadcastResults.TermStallsIff | zookeeper/paxos/lead.cpp:398-446 | Drafts come to be in line with none of them sent exactly at a throw that leaves one in line |
| BroadcastResults.StalledTermCommitsNothing | zookeeper/paxos/lead.cpp:286-327 | From then on no run commits anything any more |
| BroadcastResults.CommitsRestOnAMajority | zookeeper/paxos/lead.cpp:286-327 | The leader's log grows only by one bill at an acknowledgement, and a majority of all servers then holds that bill |
| BroadcastResults.VotersHold | zookeeper/paxos/follow.cpp:153-166 | Whoever has voted on the first draft, the requester aside, is a follower that has logged it |
| BroadcastResults.HoldersOutnumberVoters | zookeeper/paxos/lead.cpp:274-292 | The requester counted early and the leader never counted make up for each other |
| BroadcastProgress.CommitsIff | zookeeper/paxos/lead.cpp:286-327 | In every reachable state and for every step: the leader's log grows, by the first draft's bill, exactly when it reads an acknowledgement of the draft that has been sent from a server that makes the voters a majority of all servers |
| BroadcastProgress.AMajorityIsEnough | zookeeper/paxos/lead.cpp:286-327 | Once the requester and the servers whose acknowledgements are waiting are a majority, reading them commits the draft, in whatever order |
| BroadcastProgress.SentIffAccepted | zookeeper/paxos/lead.cpp:398-446 | A draft at the front of a free line is logged and sent to every linked follower exactly if the check passes it and the disk accepts it |
| BroadcastProgress.MissingBillThrows | zookeeper/paxos/lead.cpp:293-297 | An acknowledgement that completes a majority for a draft whose bill is not first in line is counted, and then the handler throws before anything else is done |
| BroadcastProgress.JoinersAreSentTheBills | zookeeper/paxos/lead.cpp:149-165 | A server that joins is sent the leader's uncommitted bills, each once and in order |
| BroadcastProgress.CommittedBillsPassedTheCheck | zookeeper/transaction/dataset.cpp:81-91 | Every bill committed in the term passed the state machine's check in the very state it was applied to |
| BroadcastSpec.ZxIdsAscendIff | zookeeper/transaction/dataset.h:93 | Ids are ordered by term and, within a term, by number |
| BroadcastAnswers.AnswersNameTheirDraft | zookeeper/paxos/lead.cpp:293-325 | In every run: a success told at the leader, or at a follower that has not lost its place in the stream, answers a draft of this server under this request number, whose bill this server has applied, and which is this client's own unless it is from an earlier session; no request is answered twice |
| BroadcastAnswers.AnswerIsFalseIff | zookeeper/paxos/follow.cpp:180-190 | When a follower reads the success for a draft, what it tells its client is false exactly if the request number now stands for other data, which takes a draft from an earlier session |
| BroadcastAnswers.AnswersAreTrue | zookeeper/paxos/lead.cpp:293-325 | If nobody joins while the leader holds one of its earlier drafts, every success told is for a write of exactly this client's data that this server has applied |
| BroadcastAnswers.NobodyGoesAstray | zookeeper/paxos/follow.cpp:115-145 | In such runs no follower ever loses its place in the stream |
| BroadcastReplies.ResolvedIsAnswered | zookeeper/paxos/lead.cpp:286-327 | Whatever takes a draft out of line, its client is called back if it is the leader's own, and otherwise the answer is on its way if its server is connected, a success exactly if the draft has just been committed; the one exception is the draft at which a handler throws |
| BroadcastReplies.AnswersArePassedOn | zookeeper/paxos/follow.cpp:180-190 | A server that is up to date passes every answer on once to the client that waits for it, and to nobody else |
| BroadcastEarly.EarlyJoinTellsFalsely | zookeeper/paxos/follow.cpp:52-68 | The converse: from every state in which a server joins while its own draft is first in line and about to be committed, and for whatever other data, some continuation tells its client that this data is written |
| BroadcastEarly.StalledJoinIsHarmless | zookeeper/paxos/lead.cpp:286-327 | In a stalled term an early join does no harm: in no continuation is success told to a follower's client for a draft in line |
| BroadcastResults.DraftsResolveInOrder | zookeeper/paxos/lead.cpp:398-446 | Drafts are resolved in the order submitted, none skipped |
| BroadcastResults.StepKeepsInv | zookeeper/paxos/lead.cpp:181-210 | Joining, leaving, submitting and reading a message, with or without a throw, keep the invariant of the term |
| BroadcastLead.LaunchNextKeeps | zookeeper/paxos/lead.cpp:398-446 | However the loop ends, in a launch, with nothing left or in a throw, links, logs, votes and answers stay right |
| BroadcastLead.CommitKeeps | zookeeper/paxos/lead.cpp:293-325 | Committing the first draft meets no throw and keeps links, logs, votes and answers right |
| BroadcastTerm.JoinKeeps | zookeeper/paxos/lead.cpp:149-165 | Joining at the leader's last id keeps the invariant: what is sent at the join, followed by what is forwarded, leads the server to where the leader is |
| BroadcastLimits.FirstRequestThrowsIff | zookeeper/transaction/dataset.cpp:81-91 | A leader starting with an uncommitted bill throws on its first request, and only then |
| BroadcastLimits.FollowerThrowsIff | zookeeper/transaction/dataset.cpp:93-98 | A follower takes a proposal and its commit without throwing exactly if no other bill was in front |
| BroadcastLimits.RefusalLeavesABillUnsent | zookeeper/paxos/lead.cpp:398-446 | A reachable state after a refused draft with another behind it: the leader has logged a bill nobody was sent, a follower that has read everything lacks it, the one whose acknowledgement was handled is dropped, and the term is stalled |
| BroadcastLimits.EarlyRejoinAnswersFalsely | zookeeper/paxos/follow.cpp:52-68 | A reachable state, after one early join, in which a client has been told its write succeeded although no server has it |
| BroadcastStray.FourteenthAnswerIsMisread | zookeeper/paxos/follow.cpp:115-145 | A reachable state, after fourteen requests and an early join, in which a follower has taken an answer for a commit of a bill that nobody has, and has thrown |
| BroadcastStray.EarlyAnswerIs | zookeeper/paxos/follow.cpp:115-193 | For every request number, by its eight bytes: whether an early answer makes a follower lose its place in the stream, whether it is taken for the end of the synchronisation, and that it does nothing else |
| BroadcastStray.StrayAcknowledgementBreaksTheMajority | zookeeper/paxos/lead.cpp:286-327 | If such a follower were listened to, a bill that only the leader holds would be committed |
| LeadFollow.Lead.Propose | zookeeper/paxos/lead.cpp:274-284 | In place: id, draft with the requester's vote, launch if it is alone |
| LeadFollow.Lead.AckPropose | zookeeper/paxos/lead.cpp:286-327 | In place: vote, count, commit, announce, answer, launch the next; `ok` tells whether it comes back without a throw |
| LeadFollow.Lead.LaunchNextDraft | zookeeper/paxos/lead.cpp:398-446 | In place, with the guard's ownership as a local variable: refuses drafts until one is logged and sent, and throws at the second release of the lock, before the bill is sent or the refused draft answered |
| LeadFollow.Lead.Submit | zookeeper/paxos/lead.cpp:259-268 | In place: a client's request at the leader gets an id and a callback |
| LeadFollow.Lead.SyncFollower | zookeeper/paxos/lead.cpp:149-165 | In place, for a server at the leader's last id: the loop sends every uncommitted bill in order, and forwarding starts |
| LeadFollow.Lead.Unregister | zookeeper/paxos/lead.h:41-46 | In place: nothing is forwarded to that server any more, and nothing else changes |
| LeadFollow.Follow.Propose | zookeeper/paxos/follow.cpp:52-68 | In place: a client's request at a follower gets an id, a callback and a message |
| LeadFollow.Follow.ProcessMessage | zookeeper/paxos/follow.cpp:115-193 | In place: log and acknowledge, commit, answer, become up to date, or take an answer's bytes for message types |
| LeadFollow.Follow.SkimAnswer | zookeeper/paxos/follow.cpp:115-145 | In place: the loop goes through the bytes of an answer that has come too early, until one of them reads as the type of a longer message |
| PeerEpoch.AllCallersGetOneEpoch | zookeeper/paxos/lead.cpp:330-359 | However the calls interleave, all return one epoch, one above the highest registered |
| PeerEpoch.AnEpochNeedsAMajority | zookeeper/paxos/lead.cpp:336-349 | No call passes the poll before a majority has reported a positive epoch |
| PeerEpoch.FreshServersNeverStart | zookeeper/paxos/lead.cpp:339-349 | Servers whose epochs are all 0 wait for ever |
| PeerEpochLimits.ACallReturnsIff | zookeeper/paxos/lead.cpp:336-349 | In every reachable state, unless somebody reports anew, a call can return exactly if a majority has reported a positive epoch |
| PeerEpochLimits.WokenTwiceIsAnswered | zookeeper/paxos/lead.cpp:336-359 | Once a majority has reported, a call that wakes twice returns, whatever happens in between |
| PeerEpochLimits.CallsAgreeIff | zookeeper/paxos/lead.cpp:351-358 | In every run, whatever servers report: when the first call settles, all calls that will ever return agree exactly if those that can return have equal epochs or epochs covered by the highest one written down; with a majority still written down, exactly if no call's epoch is above that |
| PeerEpochLimits.FallingReportsSplitTheEpoch | zookeeper/paxos/lead.cpp:351-358 | A server that reports a lower epoch the second time leaves two callers with different epochs |
| PeerEpochLimits.LostMajorityLeavesCallsWaiting | zookeeper/paxos/lead.cpp:336-358 | If the second report also undoes the majority, the call with the higher epoch never returns, and the others agree |
| PeerEpoch.Epochs.Poll | zookeeper/paxos/lead.cpp:337-343 | The counting loop decides whether a majority has reported |
| PeerEpoch.Epochs.Settle | zookeeper/paxos/lead.cpp:351-358 | The maximum loop, the epoch stored and returned |
| PeerEpoch.Epochs.Register | zookeeper/paxos/lead.cpp:330-334 | A settled epoch is returned at once, otherwise the report is written down |
| CrawlerSafety.ClosedMeansFinished | spider/URLGraph.cpp:52-60 | At close nothing is queued, nobody works, and every URL taken up has been fetched exactly once and reported done |
| CrawlerSafety.OpenMeansSomeoneCanMove | spider/URLGraph.cpp:4-65 | Before that, with at least one worker, somebody can always move |
| CrawlerResults.TheCrawlIsTheReachableSet | spider/URLGraph.cpp:43-51 | Only pages are taken up that a chain of links of fetched pages leads to, and no more than the limit as an unsigned number; once closed all of them have been, unless the limit was hit |
| CrawlerResults.EveryScheduleCloses | spider/URLGraph.cpp:4-65 | With a limit or finitely many pages every schedule that lets someone move ends closed |
| CrawlerResults.FirstInFirstOut | spider/URLGraph.cpp:12-27 | Pages are fetched in the order in which they are taken up |
| Crawler.UrlGraph.ReceiveEvent | spider/URLGraph.cpp:40-59 | In place: what the coordinator does with one event |
| Crawler.UrlGraph.SendUrl | spider/URLGraph.cpp:47-48 | In place: hands a URL on and marks it pending |
| Crawler.UrlGraph.Fetch | spider/URLGraph.cpp:12-22 | In place: a worker takes the oldest URL waiting and fetches it |
| Crawler.UrlGraph.EmitEvent | spider/URLGraph.cpp:21-27 | In place: a worker reports the next link, or its page done |
| VoteStream.VoteReceiver.OnRecv | zookeeper/election/election.cpp:140-176 | In the 1024-byte buffer: the complete frames are acted on in order and the incomplete tail stays, up to the first header with no positive size or with a vote too short for one, which are told apart |
| VoteStream.FirstHeaderDecides | zookeeper/election/election.cpp:140-176 | What becomes of the first frame in a buffer, by its four header bytes: not complete yet, malformed in one of two ways, a sign of life, a vote, or ignored |
| VoteStream.SplittingDoesNotMatter | zookeeper/election/election.cpp:140-176 | However the stream is split, what is acted on, what stays and how it ends are those of the whole stream in one piece |
| VoteStream.VotesArriveHoweverSplit | zookeeper/election/election.cpp:136-178 | Of the votes sent, those complete so far have been delivered once and in order, and the buffer holds the rest of the stream |
| VoteStream.VotesAlwaysLeaveRoom | zookeeper/election/election.cpp:141-144 | Every time recv is called there is room for more |
| VoteStream.RoomIsLeftIff | zookeeper/election/election.cpp:141-150 | The buffer is left full exactly when a frame is declared larger than it |
| Selector.SearchIsExact | spider/html/HtmlDocument.cpp:140-164 | A query reports exactly the topmost tags on whose way down the rules are met in order, ending there, each once and in document order |
| Selector.HitsIsTopmost | spider/html/HtmlDocument.cpp:149-157 | Matching each rule at the first chance stops exactly at the topmost tag that any matching selects |
| Selector.GreedyIsBest | spider/html/HtmlDocument.cpp:149-157 | No choice of tags meets more rules than the greedy one |
| Selector.CheckIsFits | spider/html/HtmlDocument.cpp:166-183 | A tag meets a rule exactly if it has the id and the name asked for, where any is, and all the classes |
| Selector.Query.SearchTag | spider/html/HtmlDocument.cpp:140-164 | The recursion appends to the output exactly the tags that the exactness result is about |
| Wildcard.CheckPattern | olib/include/file_system.h:54-88 | Cutting a pattern and checking a name succeeds exactly if the name matches the pattern with a star on either side |
| Wildcard.Check | olib/include/file_system.h:75-88 | The leftmost search succeeds exactly if the pieces occur in order without overlap |
| Wildcard.Cut | olib/include/file_system.h:54-73 | The loop yields what lies between the cuts |
| Wildcard.JoinOfPieces | olib/include/file_system.h:54-73 | Joining the pieces gives the pattern back, and no piece holds the character |
| Wildcard.PiecesOfJoin | olib/include/file_system.h:54-73 | Cutting what was joined gives the pieces back |
| Wildcard.AnchoredMatchPasses | olib/include/file_system.h:75-88 | A name that matches the pattern as written always passes |
| Wildcard.PassingMeansMatchingIff | olib/include/file_system.h:54-88 | Passing the check means matching the pattern as written, for all names, exactly for the patterns that begin and end with a star |
| Wildcard.UnanchoredNamePasses | olib/include/file_system.h:75-88 | An instance of the others: a.xml.bak passes for *.xml |
| IdGenerator.IdsIncrease | ofs/master/OfsId.h:18-43 | However threads interleave, exchanges fail and the clock jumps, ids strictly increase and none repeats, while the seconds fit 32 bits |
| IdGenerator.LateClockRepeatsAnId | ofs/master/OfsId.h:18-43 | For every later clock reading there is a run that hands out one id twice |
| IdGenerator.NextIsLargerIff | ofs/master/OfsId.h:27-38 | The id built is a larger proper id exactly if the clock is not ahead by a reading beyond 32 bits |
| IdGenerator.NextIsStamped | ofs/master/OfsId.h:22-38 | An id is stamped with the clock and numbered 0 if the clock has moved on; if not, it gets the next number under the old stamp, and there is none exactly if the second's 1023 numbers are used up |
| IdGenerator.UnpackIsExactIff | ofs/master/OfsId.h:13-16 | The file id is got back exactly if it leaves the index bits clear, the index exactly if it fits 21 bits |
| IdGenerator.BlockIdsDiffer | ofs/master/OfsId.h:13-16 | Packing is injective |
| IdGenerator.BlocksOfGeneratedFilesDiffer | ofs/master/OfsId.h:7-43 | No two blocks of files created in one run have the same id |
| IdGenerator.Generator.Load | ofs/master/OfsId.h:22-38 | The id seen and the id built from it, or none when the second's numbers are used up |
| Downloader.FileDownloader.Start | ofs/client/OfsFileDownloader.cpp:5-24 | Success means the local file is the remote one, failure that it is a prefix; one healthy server for each block is enough |
| Downloader.FileDownloader.GetBlock | ofs/client/OfsFileDownloader.cpp:42-95 | The same for one block, across any change of server in the middle |
| Downloader.FileDownloader.ReadOn | ofs/client/OfsFileDownloader.cpp:68-88 | Reading from one server adds the block's bytes from where the last one stopped |
| Downloader.ReplicasAreTruthful | ofs/master/block/Block.h:43-49 | In every reachable state of replication, servers whose copies carry one version answer a download with the bytes of that version or not at all |
| Downloader.LengthsAddUp | ofs/client/OfsFileDownloader.cpp:14-16 | The lengths asked for add up to the file's size, none empty or longer than a block |
| DirectoryArchive.LoadOfSave | ofs/master/file/Directory.h:16-69 | For trees of any depth and any walk of the child maps, loading gives back fields, delete marks and file ids and stops exactly behind what was written |
| DirectoryArchive.WalkOrderDoesNotMatter | ofs/master/file/Directory.h:57-68 | Two walks of one tree load as the same tree |
| DirectoryArchive.CutStreamFails | ofs/master/file/Directory.h:20-30 | A stream cut short anywhere is noticed |
| DirectoryArchive.SomeWalk | ofs/master/file/Directory.h:57-68 | Every tree whose nodes are filed under their own names has a walk |
| DirectoryArchive.LoadDirectory | ofs/master/file/Directory.h:16-49 | The loop, recursing into directories, reads exactly the tree that the round trip is about, and `ok` tells whether the stream failed |
| DirectoryArchive.SaveDirectory | ofs/master/file/Directory.h:51-69 | The loop, recursing into directories, writes exactly the stream that the round trip is about |

## Left out

- ReplicationSafety.GrantOk: that a lease for another server is granted only after the earlier ones have run out is an assumption on the run; the code's own choice does not give it (`LaggingLeaseholderIsPassedOver`).
- BroadcastResults.CommitsRestOnAMajority: covers commits by acknowledgement; the flush at the end of `Lead::Leading` commits without a quorum.
- BroadcastTerm.JoinKeeps: servers join at the leader's last id with nothing uncommitted; the branches of `SyncFollower` that send a difference, a truncation or a snapshot (lead.cpp:99-147) and `DataSet::Snap` are not modelled.
- LeadFollow.Lead.SyncFollower: the same branches. The exchange before it, in which ids and epochs are told, is taken as meant: `ReadMessage` reads only the type byte (zookeeper/socket_helper.h:36-51).
- BroadcastAnswers.AnswersNameTheirDraft: a follower's requests are counted per connection, because the request numbers start again at 1 with each one.
- LeadFollow.Lead.LaunchNextDraft: a handler is one step, so requests that arrive between the two releases of the lock, and sends interleaving with other handlers, are not modelled. Proposals are records: the code fills the header into `data` and sends `buf`.
- LeadFollow.Lead.AckPropose: the leader's data set can save every snapshot; the throw when it cannot is modelled in `DataSet.Data.Commit` only.
- LeadFollow.Follow.ProcessMessage: the follower can save every proposal and snapshot; the throw when it cannot ends the follower's loop and is not modelled. A byte of an early answer that reads as PX_NEWLEADER sends one PX_ACK too many, which the leader's loop warns about; it is not modelled.
- BroadcastResults.LosesItsPlaceIff: what such a follower reads afterwards is any message, because the bytes of proposals are not modelled; that it acknowledges nothing and does not join again in the term is an assumption (`StrayAcknowledgementBreaksTheMajority` shows that the first is needed). Where the bytes happen to make it throw, as in `FourteenthAnswerIsMisread`, the first is a fact.
- DirectoryArchive.LoadDirectory: trees are values and the archive a sequence of typed values; object identity, parent links and the byte format of the archiver (not in the repository) are not modelled.
- Selector.Query.SearchTag: tags are named by their position in the tree instead of by address; the selector string's parser and the HTML parser are not modelled, and `isChild` is stored but ignored, as in the code.
- Downloader.FileDownloader.Start: a failing local disk is not modelled; a negative block size is not either.
- VoteStream.VoteReceiver.OnRecv: at a vote's header that declares fewer than 28 bytes the model stops, while the code delivers a vote that reaches past the frame, possibly into bytes not yet received, and goes on; at one that declares no positive size the code repeats itself or leaves the buffer. The twin loop in `VoteSender::DealPingpong`, timers and reconnecting are left out; a vote is its 24 bytes.
- FileSize.File.UpdateSize: sizes are unbounded, in this module and in `FileGrowth`; the source's are 32 bits (FileSystem.h:37-47, File.h:27), so a file of 4 GB or more is outside the model.
- Disk failures and restarts of chunk servers (`ScanBlock`, `CleanBlock`) and the log files of the data set: every file operation succeeds as a whole, except where a row says otherwise. A missing block file is an empty one; the single byte written before the resize is overwritten by it and not modelled. On Linux opening a missing file for writing would fail; creation is modelled as on Windows.
- 64-bit overflow of block versions, negative offsets from clients, and 2^32 or more proposals in a term.
- Handlers of the chunk server are atomic; the version read just before a client's write is the version it is applied to.
- The chunk server's `_fault` flag, which nothing sets, and the throw in `Lead::Register` for a server that is already registered: a connected server does not join.
- All servers use one clock and one configuration of batch and block size.
- Placement and repair of replicas (`CheckReplica`, `ClearReplica`, the cluster): which servers are added and when a copy is ordered are inputs.
- `LookForLeader`: no claim that one leader is elected. `WaitForNewLeader`, pings and the check for a lost majority are left out.
- `Directory::StartGC`, path queries, users and permissions, the uploader, sockets, RPC, configuration, `storm/`, `spark/`, `yarn/` and the duplicate under `paxos/`.
