# OrcDB in Dafny

A model of OrcDB's replicated key-value store and proofs about it: the Raft cluster as a step machine,
the node and its log as the classes that run in each process, the write-ahead log down to its bytes, the
RPC byte stream, the key-value state machine, and the Base64url codec of its tokens.

`dafny verify dfyconfig.toml` checks the whole project.

## How it is built

- **Node and cluster.** `NodeSpec` has one function for each stretch of code that runs under the node's
  lock. `Cluster` makes them actions over a set of nodes and a set of messages; a message stays in that
  set once sent, so it may be delivered late, out of order, twice or never. An execution is any sequence of
  actions the code can take (`Cluster.Enabled`); a run is an execution all of whose actions meet the two
  conditions below (`Cluster.Regular`). `RaftNode.dfy` and `RaftLog.dfy` are the same code as classes with
  fields and loops; every method is proved equal to its function in `NodeSpec`.
- **Safety.** `History` records the past of a run (who led which term with which log, every vote, every
  acknowledgement, what has been decided). `Invariants` states the inductive invariant over state and
  past; `Stability`, `CalmSteps`, `LeaderSteps`, `FollowerSteps`, `ReplySteps` and `Runs` prove that every
  action keeps it; `Safety` and `RunLaws` draw the conclusions, which speak of runs only.
- **Progress.** `NodeLaws` says what one step of a node must do, whatever state the node is in. `Rounds` takes
  a leader and a peer in any reachable state to equal logs, `Elections` takes any majority to a leader,
  `Progress` takes it on to an applied proposal, and `Availability` shows that no smaller set gets there.
- **Concrete runs.** `Scenarios` has the building blocks (an election, a delivery, a reply, a series of
  proposals or applications); `StaleReply`, `LossyRestart` and `Untruthful` put them together into
  executions of three nodes, from the initial state on, in which something goes wrong.
- **Backtracking.** `Backtracking` is the conversation between a leader and one follower on two logs.
- **Disk.** `WalRecords` folds records into what a restart sees. `Bytes`, `Crc32`, `WalFrames` and
  `WriteAheadLog` go from records to checksummed frames in segment files and back; `NodeOnDisk` ties a
  node's list of records to the files.
- **Wire.** `RpcFrames` has the frames, the client's and the server's receive loop.
- **Tokens.** `Base64Url` is the codec, `Base64Laws` holds it against its standard.
- **State machine.** `StoreSpec` is the store as a map folded over entries, `KvStore` the store kept in
  key order in place, `KeyOrder` the order, `ReplicatedStore` what the cluster's safety means for stores.

## What the code needs, and what it gets wrong

Safety is proved for runs, which satisfy two conditions. Neither is enforced by the original, and each is
needed: leaving it out once, and keeping everything else, is enough for two nodes to apply different entries.

- *A leader handles a reply only in the term in which it sent the request* (`Cluster.FreshReply`). The code
  compares the reply's term with its current term only (src/raft/RaftNode.cpp:261). A follower that has
  moved on answers a stale request with a rejection without hints, and that sets `nextIndex` to 1
  (`StaleRepliesCarryNoHint`). The next batch may then stop inside the common prefix, and the follower
  commits an entry its leader does not hold: `StaleReplyBreaksSafety` gives the execution.
  The default timings (src/raft/RaftConfig.hpp:20-23) are there to give the condition.
- *A node restarts only when its write-ahead log gives back its log* (`Cluster.Intact`). `AppendAll` logs
  entries the node already holds, and recovery truncates at a repeated index, so a delayed batch that ends
  before the last index makes recovery lose entries, among them entries the node has acknowledged:
  `LossyRestartBreaksSafety` gives the execution. `AgreesIffBatchEndsAtLast` and `IntactIffNotShort` say
  exactly when a batch does that; `RestartsAreLossless` shows that in a run without such a delivery every
  restart between two actions is allowed. A crash between two writes of one batch keeps what is held
  exactly if nothing or enough of the batch had been written (`CrashDuringBatchKeepsIff`).

Other results that are not what one might expect:

- The commit index of a leader moves only when a peer answers, so a cluster of one node elects itself and
  never commits anything (`AloneNeverCommits`). With two nodes or more, after any run, a set of nodes can go
  on alone, take a proposal, commit it and apply it if and only if it is a majority (`ServesIffMajority`).
- A follower answers with the term it had before it stepped down, so a leader ignores the first answer of
  every follower it brings into its term (`FirstContactIsIgnored`).
- Every restart writes the whole log to disk again (`RestartsPileUp`).
- The Base64url decoder takes octets from 128 on as `A` (`HighOctetsReadAsA`) and reads on behind a `=` inside
  a group (`PaddingInsideIsRead`). Decoding and encoding again gives back the input if and only if it is
  canonical (`ReencodesIffCanonical`).
- Pairwise log matching alone does not make a rejection lower `nextIndex`: `MatchingAloneDoesNotLower`
  raises it from 2 to 3. `RejectionLowersIff` gives the exact condition, and `LogMatching` shows that all
  reachable logs meet it.
- An ok from `Propose` is truthful exactly if the log still holds the proposal's term at the index
  (`OkIsTruthfulIff`); the wait does not look at terms, and `OkMayBeUntruthful` gives a run in which a
  proposer that has lost and regained the leadership would answer ok for an entry it did not apply.
- `SetSnapshot` keeps the index map in order exactly if the snapshot index is not in the log
  (`CompactionKeepsIndexIff`), which is the recovery case; taken from a live log it shifts every entry by one.
- Snapshot plus suffix equals the whole log exactly if every key that had expired at the snapshot is
  deleted in the suffix (`SnapshotThenLog`); keeping such a key's version count alive otherwise differs.
- Reopening does not cut a torn tail. Over a cut between two records nothing more is lost
  (`WholeIffAtBoundary`, `ReopenAtBoundary`); over any cut, what is appended is read back behind the records
  before it if and only if its bytes, shifted by the torn ones, still begin with themselves
  (`AppendedReadIff`), so a tear in the header or behind it hides what follows (`TearHidesAppended`,
  `AppendedAfterTearIsLost`).
- The RPC server leaves whole requests in its buffer exactly if a frame other than a request precedes them
  (`ServesAllIff`, `RequestBehindOtherWaits`).
- The project's own README promises `fdatasync` after each write (README.md:202); hard state is written without
  it (src/storage/WriteAheadLog.cpp:130-134). The model follows the code in everything but this: a
  completed write survives a crash.

## Model

| member | source | states |
|---|---|---|
| Safety.StateMachineSafety | src/raft/RaftNode.cpp:303-325 | in every run, for any cluster and any two moments, one node's applied entries are a prefix of the other's |
| Safety.AppliedIsDecided | src/raft/RaftNode.cpp:303-325 | lastApplied <= commitIndex <= last index, and what is applied is the log's prefix and a prefix of the one decided log |
| RunLaws.AppliedWasProposed | src/raft/RaftNode.cpp:435-455 | whatever a node has applied, no-ops aside, was proposed by a client before, with that operation, key, value and time to live |
| Safety.LeaderCompleteness | src/raft/RaftNode.cpp:283-299 | what a node has committed at any moment is in the log of every leader of a later term, whenever it led, and of every leader of the same term from then on |
| Safety.ElectionSafety | src/raft/RaftNode.cpp:109-166 | at most one leader per term over a whole run with restarts, and a leader's log only grows in its term |
| Safety.LogMatching | src/raft/RaftNode.cpp:367-390 | in every reachable state two logs with the same term at an index are equal up to it, terms never decrease, and a term starts at the same index in both |
| Safety.CountersNeverFall | src/raft/RaftNode.cpp:387-396 | between restarts of a node commitIndex and the applied entries never go back and nothing committed is cut from its log |
| RunLaws.AcceptedRaisesCommit | src/raft/RaftNode.cpp:393-395 | in a run an accepted request, empty or not, makes the commit index the larger of what it was and the leader's as far as the log goes |
| RunLaws.RestartKeepsVote | src/raft/RaftNode.cpp:24-40 | at any moment of a run a restart keeps term and vote and starts as a follower that has applied nothing |
| RunLaws.TermsCountElections | src/raft/RaftNode.cpp:109-122 | in a run no term, in a node or in a message, is higher than the number of elections started |
| RunLaws.MatchNeverFalls | src/raft/RaftNode.cpp:263-267 | while a node leads a term its match index for a peer never falls |
| RunLaws.MatchIsHeld | src/raft/RaftNode.cpp:263-267 | a peer still in the leader's term holds the leader's entries up to its match index |
| Safety.AcceptedBatchIsPrefix | src/raft/RaftNode.cpp:367-396 | after every accepted AppendEntries the follower's log is a prefix of the log its sender had as leader of that term at some moment up to the delivery, although the follower commits up to its own last index |
| Safety.AcceptedStaysPrefix | src/raft/RaftNode.cpp:367-396 | and of every log the sender has from then on while it leads that term |
| Safety.OkIsTruthfulIff | src/raft/RaftNode.cpp:457-463 | what was applied at a proposal's index is the proposal if and only if the log holds the proposal's term there |
| Safety.UnchangedTermIsTruthful | src/raft/RaftNode.cpp:443-463 | a proposer that still leads the term of its proposal meets that condition |
| Safety.AcknowledgedProposalStands | src/raft/RaftNode.cpp:435-464 | once so applied, the proposal is what every node applies at that index at any moment, what every leader of a later term holds there and every leader of the same term from then on |
| Untruthful.OkMayBeUntruthful | src/raft/RaftNode.cpp:457-463 | there is a run in which a proposer leads and has applied its proposal's index, so that it would answer ok, and what it applied there is another entry |
| ReplicatedStore.StoresAgree | src/raft/RaftNode.cpp:327-339 | nodes at equal lastApplied, at any two moments of a run, hold the same keys, values, versions and indices |
| LeaderSteps.WinnerIsFirst | src/raft/RaftNode.cpp:159-166 | a candidate with a quorum of votes is the first to win its term |
| LeaderSteps.WinnerIsComplete | src/raft/RaftNode.cpp:426-431 | the up-to-date check and the quorum give the winner everything an earlier leader may have committed |
| ReplySteps.MayCommitIsCommitted | src/raft/RaftNode.cpp:283-299 | the commit rule counts a real majority of acknowledgements of an entry of the leader's own term |
| FollowerSteps.AcceptedIsPrefix | src/raft/RaftNode.cpp:387-396 | an accepted batch leaves a prefix of the leader's log wherever the hints allow the leader to probe |
| Runs.ActionKeeps | src/raft/RaftNode.cpp:109-464 | every action keeps the invariant and only adds to the past |
| Availability.ServesIffMajority | src/raft/RaftNode.cpp:109-464 | after any run a set of nodes can alone take any proposal, commit it and apply it on all of them if and only if it is a majority of at least two |
| Progress.MajorityCanServe | src/raft/RaftNode.cpp:109-464 | from every reachable state, whatever happened before, such a continuation by regular actions of the majority without restarts exists |
| Availability.MinorityNeverCommits | src/raft/RaftNode.cpp:283-299 | what is proposed after all but at most half of the nodes have stopped is never applied by any node |
| Progress.AloneNeverCommits | src/raft/RaftNode.cpp:261-267 | in every run of a cluster of one the commit index stays 0 |
| Elections.LeaderCanBeFound | src/raft/RaftNode.cpp:109-166 | from any reachable state any majority can come to have a leader none of it is ahead of in term |
| Rounds.Search | src/raft/RaftNode.cpp:206-279 | in any reachable state rounds of request, delivery and answer between a leader and a peer of its term end in an acceptance after at most 1 + (distinct terms of the peer) rejections |
| Rounds.RejectedRound | src/raft/RaftNode.cpp:268-279 | in any reachable state a rejected round changes nothing but the leader's nextIndex for that peer, which strictly falls to the next probe |
| Rounds.Fill | src/raft/RaftNode.cpp:233-238 | from the first acceptance on the peer reaches the leader's last index in exactly as many rounds as there are batches of a hundred |
| Rounds.CatchUp | src/raft/RaftNode.cpp:206-279 | from any reachable state rounds with a leader none is ahead of make the peer's log the leader's |
| NodeLaws.GrantedIffNotBehind | src/raft/RaftNode.cpp:402-431 | in a new term a node votes for a candidate if and only if the candidate's log is not behind its own by last term, then length |
| NodeLaws.LongerLogIsGranted | src/raft/RaftNode.cpp:426-431 | a candidate whose log extends the voter's gets its vote in a new term |
| NodeLaws.OneOfTwoIsGranted | src/raft/RaftNode.cpp:426-431 | of any two nodes at least one would get the other's vote in a new term |
| NodeLaws.VoteStands | src/raft/RaftNode.cpp:413-421 | after a vote the same request is granted again, and any other of that or an earlier term is refused |
| NodeLaws.LaterTermIsAdopted | src/raft/RaftNode.cpp:146-149 | a delivered request or reply makes the term the larger of both, and a later one makes the node a follower |
| NodeLaws.FirstContactIsIgnored | src/raft/RaftNode.cpp:256-261 | a request takes a follower behind in term into the leader's, and the leader makes nothing of its answer |
| NodeLaws.LateVotesChangeNothing | src/raft/RaftNode.cpp:150-152 | a granted vote counts once and only for the candidacy it was cast for |
| NodeLaws.LateAnswersChangeNothing | src/raft/RaftNode.cpp:261 | an answer of an earlier term, or to a node that no longer leads, changes nothing |
| NodeLaws.BatchIsNextHundred | src/raft/RaftNode.cpp:228-238 | a request carries the entries from nextIndex on, all of them or the first hundred |
| NodeLaws.AcceptedCommits | src/raft/RaftNode.cpp:393-395 | an accepted request, empty or not, puts the commit index between what the leader has committed as far as the log goes and the larger of both, and lowers it exactly if it cuts the log below it |
| NodeLaws.HeartbeatCommits | src/raft/RaftNode.cpp:222-241 | a request whose probe succeeds passes on the leader's commit index |
| NodeLaws.RejectionIsProbe | src/raft/RaftNode.cpp:268-279 | a rejected request and its answer move nextIndex to the next probe of the search on the two logs, and change nothing else |
| NodeLaws.AcceptanceIsMatch | src/raft/RaftNode.cpp:263-267 | a success raises the peer's match index to what was sent, never lowers it, sets nextIndex behind it and leaves the other peers alone |
| NodeLaws.AcceptanceCommits | src/raft/RaftNode.cpp:263-299 | after a success no index above the commit index is held by a quorum with an entry of the leader's term |
| NodeLaws.AdvanceCommitFinds | src/raft/RaftNode.cpp:283-299 | the commit index moves to the last index held by a quorum with an entry of the current term, and only there |
| NodeLaws.RestartsPileUp | src/raft/RaftNode.cpp:36-39 | any number of restarts gives the same node, with one more copy of the log in the write-ahead log for each |
| Invariants.MajoritiesMeet | src/raft/RaftNode.hpp:88 | any two quorums share a node |
| Backtracking.Converge | src/raft/RaftNode.cpp:268-279 | for matching, aligned logs the probes end in acceptance after at most 1 + (distinct follower terms) rejections, above every agreed prefix and the match index |
| Backtracking.RejectionKeepsAgreedPrefix | src/raft/RaftNode.cpp:367-384 | a rejection never moves nextIndex to or below the end of an agreed prefix, and keeps it between 1 and the last index + 1 |
| Backtracking.RejectionLowersIff | src/raft/RaftNode.cpp:268-279 | a rejection with a conflict term lowers nextIndex if and only if the leader has no entry of that term from the probed index on |
| Backtracking.MatchingAloneDoesNotLower | src/raft/RaftNode.cpp:268-279 | two logs that satisfy log matching on which a rejection raises nextIndex |
| Backtracking.RejectionLowers | src/raft/RaftNode.cpp:268-279 | with aligned terms every rejection strictly lowers nextIndex and keeps it at least 1 |
| Backtracking.ConflictTermFalls | src/raft/RaftNode.cpp:375-384 | conflict terms strictly fall from one rejection to the next |
| Backtracking.RunStartFinds | src/raft/RaftNode.cpp:379-383 | the follower's walk back ends at the first index of the run of the conflicting term |
| Backtracking.LastInTermFinds | src/raft/RaftNode.cpp:270-274 | the leader's search finds its last entry of the conflicting term, or 0 if it has none |
| NodeSpec.CommitSearchFinds | src/raft/RaftNode.cpp:283-299 | the downward search finds the highest index that may be committed and never goes below commitIndex |
| Logs.SpliceCutsAtFirstConflict | src/raft/RaftLog.cpp:28-52 | the splice keeps what matches, cuts at the first term conflict and appends the rest, or changes nothing |
| Logs.SpliceIdempotent | src/raft/RaftLog.cpp:28-52 | a second delivery of a batch changes nothing |
| Logs.SpliceKeepsAgreed | src/raft/RaftLog.cpp:32-43 | a batch from a log never cuts into a prefix agreed with that log |
| RaftLogs.MergeIsSplice | src/raft/RaftLog.cpp:32-43 | the entry-by-entry loop of AppendAll is that splice |
| RaftLogs.CompactionKeepsIndexIff | src/raft/RaftLog.cpp:98-116 | compaction keeps entries at their indices if and only if the snapshot index is not held; otherwise every kept entry is one place too far |
| RaftLogs.RaftLog.constructor | src/raft/RaftLog.cpp:7-14 | a new log is empty behind its sentinel |
| RaftLogs.RaftLog.LastIndex | src/raft/RaftLog.cpp:80-83 | the last index is the snapshot index plus the number of entries |
| RaftLogs.RaftLog.LastTermHeld | src/raft/RaftLog.cpp:85-88 | the last term, or the snapshot's if the log is empty |
| RaftLogs.RaftLog.GetTerm | src/raft/RaftLog.cpp:90-96 | the term held at an index, 0 outside the log on either side, over 64-bit subtraction |
| RaftLogs.RaftLog.GetEntry | src/raft/RaftLog.cpp:62-69 | the entry at an index, the sentinel at the snapshot index, an error outside the log on either side |
| RaftLogs.RaftLog.Append | src/raft/RaftLog.cpp:16-26 | appends any entry to memory and to the write-ahead log; one numbered next keeps the index map |
| RaftLogs.RaftLog.AppendAll | src/raft/RaftLog.cpp:28-52 | the loop leaves the merged entries and writes every entry of the batch, held or not |
| RaftLogs.RaftLog.SetSnapshot | src/raft/RaftLog.cpp:98-116 | new sentinel, the entries from the snapshot index on or none |
| RaftNodes.RaftNode.constructor | src/raft/RaftNode.cpp:24-40 | recovery state, with every recovered entry appended and logged again |
| RaftNodes.RaftNode.QuorumSize | src/raft/RaftNode.hpp:88 | the smallest number of nodes that is more than half of the cluster |
| RaftNodes.RaftNode.PersistHardState | src/raft/RaftNode.cpp:196-203 | one hard-state record with the current term and vote |
| RaftNodes.RaftNode.BecomeFollower | src/raft/RaftNode.cpp:186-194 | new term, no vote, persisted |
| RaftNodes.RaftNode.StartElection | src/raft/RaftNode.cpp:109-122 | next term, own vote persisted, request with the log's end |
| RaftNodes.RaftNode.HandleRequestVote | src/raft/RaftNode.cpp:402-424 | node and reply of the specification, the reply with the term read before stepping down |
| RaftNodes.RaftNode.CountVote | src/raft/RaftNode.cpp:144-154 | a vote counts only for the same term and candidacy; a later term steps down |
| RaftNodes.RaftNode.ConcludeElection | src/raft/RaftNode.cpp:159-166 | a quorum of votes makes the candidate leader, anything else changes nothing |
| RaftNodes.RaftNode.BecomeLeader | src/raft/RaftNode.cpp:168-184 | peer tables reset by the loop, a no-op of the new term appended and logged |
| RaftNodes.RaftNode.Propose | src/raft/RaftNode.cpp:435-455 | a leader appends an entry of its term at the next index; another node refuses |
| RaftNodes.RaftNode.PrepareAppend | src/raft/RaftNode.cpp:222-241 | the request the leader reads under the lock, at most 100 entries from nextIndex on |
| RaftNodes.RaftNode.HandleAppendEntries | src/raft/RaftNode.cpp:356-400 | node and reply of the specification in all branches: stale term, gap, conflict with hints, acceptance |
| RaftNodes.RaftNode.HandleAppendReply | src/raft/RaftNode.cpp:256-279 | match and next index after a success with commit, after a rejection with either hint, after a later term |
| RaftNodes.RaftNode.CountReplicas | src/raft/RaftNode.cpp:288-291 | one for the leader plus the peers whose match index reaches the index |
| RaftNodes.RaftNode.AdvanceCommitIndex | src/raft/RaftNode.cpp:283-299 | the loop finds what the search of the specification finds |
| RaftNodes.RaftNode.ApplyNext | src/raft/RaftNode.cpp:311-321 | applies the next committed entry, if there is one |
| Assumptions.IntactIffNotShort | src/raft/RaftLog.cpp:44-50 | an accepted batch keeps disk and memory in agreement if and only if it ends at the node's last index |
| Assumptions.RestartsAreLossless | src/raft/RaftNode.cpp:24-40 | in a run whose accepted batches end at the last index every node can restart between any two actions with the log it had |
| Assumptions.StaleRepliesCarryNoHint | src/raft/RaftNode.cpp:356-363 | in every reachable state a reply of a later term than its request is a rejection without hints |
| StaleReply.StaleReplyBreaksSafety | src/raft/RaftNode.cpp:261-277 | there is an execution from the initial state, regular but for one stale reply the leader handles, after which two nodes have applied different entries at the same index |
| LossyRestart.LossyRestartBreaksSafety | src/raft/RaftLog.cpp:44-50 | there is an execution from the initial state, regular but for one restart over a log with a repeated entry, after which two nodes have applied different entries at the same index |
| WalRecords.RecoverIsSurvivors | src/storage/WriteAheadLog.cpp:195-219 | the recovered entries are exactly the log records after the last snapshot record that no later log record reaches back to, in write order |
| WalRecords.RecoversLastSnapshot | src/storage/WriteAheadLog.cpp:212-218 | recovered snapshot, index and term are those of the last snapshot record, or none, 0 and 0 |
| WalRecords.RecoversLastHardState | src/storage/WriteAheadLog.cpp:208-211 | recovered term and vote are those of the last hard-state record, or 0 and none |
| WalRecords.ReappendingKeepsRecovery | src/raft/RaftNode.cpp:36-39 | appending every recovered entry again leaves the next recovery unchanged |
| WalRecords.AgreesIffBatchEndsAtLast | src/storage/WriteAheadLog.cpp:196-207 | after a batch, recovery gives the in-memory log if and only if the batch ends at its last index |
| WalRecords.RecoveryRebuildsMemory | src/raft/RaftLog.cpp:16-52 | over any sequence of Append and AppendAll calls with such batches recovery rebuilds the in-memory log |
| WalRecords.ShortBatchLosesEntries | src/storage/WriteAheadLog.cpp:202-204 | a batch of held entries that stops short makes recovery drop everything after it |
| WalRecords.DiskDuringBatch | src/raft/RaftLog.cpp:44-50 | what recovery gives after any number of the writes of one batch |
| WalRecords.CrashDuringBatchKeepsIff | src/raft/RaftLog.cpp:44-50 | a crash between two writes of a batch keeps a prefix the batch only repeats if and only if nothing was written or the writes reach its end |
| WalRecords.PopFromKeepsBelow | src/storage/WriteAheadLog.cpp:202-204 | the pop loop keeps exactly the entries below the new index |
| Crc32.Crc32Table.BuildTable | src/storage/WriteAheadLog.cpp:24-33 | every table entry is eight steps of the register |
| Crc32.Crc32Table.Compute | src/storage/WriteAheadLog.cpp:35-43 | the table-driven loop computes the checksum as defined one message bit at a time, for every byte string |
| Crc32.RegisterIsFeed | src/storage/WriteAheadLog.cpp:35-43 | feeding whole bytes gives the same register as feeding their bits |
| Crc32.TableStep | src/storage/WriteAheadLog.cpp:40 | one look-up by the low byte replaces eight steps |
| Crc32.BurstChangesChecksum | src/storage/WriteAheadLog.cpp:179-190 | any change within four consecutive bytes changes the checksum, at any length |
| Crc32.CheckValue | src/storage/WriteAheadLog.cpp:24-43 | the checksum of the nine digits is the published check value CBF43926 |
| WalFrames.FrameEncodes | src/storage/WriteAheadLog.cpp:97-113 | the bytes of a frame hold checksum, length, kind and payload where the reader looks for them |
| WalFrames.FrameOfDigits | src/storage/WriteAheadLog.cpp:97-113 | all bytes of one frame: checksum over kind and payload, length and their byte order |
| WriteAheadLogs.KindsOnDisk | src/storage/WriteAheadLog.hpp:13-17 | the kind byte is 1, 2 or 3 for log entry, hard state and snapshot, and frames of other kinds are skipped |
| WalFrames.CutSegment | src/storage/WriteAheadLog.cpp:167-190 | a segment cut at any byte gives exactly the frames wholly before the cut |
| WalFrames.ParseConsumes | src/storage/WriteAheadLog.cpp:168-190 | whatever is read as a frame is, byte for byte, what writing that frame gives |
| WalFrames.ReadsIff | src/storage/WriteAheadLog.cpp:167-190 | a segment of any bytes reads as given frames first if and only if it begins with their bytes |
| WalFrames.ReadBehindTearIff | src/storage/WriteAheadLog.cpp:76-88 | frames appended behind torn bytes are read as written if and only if the shift by those bytes changes nothing |
| WalFrames.TearHidesAppended | src/storage/WriteAheadLog.cpp:76-88 | a tear of any length hides appended frames that do not start with the torn bytes |
| WalFrames.AppendedAfterTearIsLost | src/storage/WriteAheadLog.cpp:76-88 | nothing is read behind a tear until a header is complete and, past the header, until the torn frame's missing bytes are made up |
| WalFrames.DamagedSegment | src/storage/WriteAheadLog.cpp:179-190 | damage within four consecutive bytes of kind and payload ends the segment exactly at that frame |
| WriteAheadLogs.TornRecovery | src/storage/WriteAheadLog.cpp:149-190 | with the last segment cut anywhere, recovery reads all records of the other segments and those wholly before the cut, in write order |
| WriteAheadLogs.WholeSegments | src/storage/WriteAheadLog.cpp:149-190 | undamaged segments give back every record in write order |
| WriteAheadLogs.WholeIffAtBoundary | src/storage/WriteAheadLog.cpp:46-62 | a cut segment is again a segment of whole records if and only if the cut is between two records |
| WriteAheadLogs.ReopenAtBoundary | src/storage/WriteAheadLog.cpp:46-88 | after reopening over such a cut everything appended is recovered behind all records before the cut |
| WriteAheadLogs.AppendedReadIff | src/storage/WriteAheadLog.cpp:76-88 | for a cut anywhere, records appended after reopening are read right behind those before the cut if and only if their bytes shifted by the torn tail begin with themselves |
| WriteAheadLogs.WriteAheadLog.constructor | src/storage/WriteAheadLog.cpp:46-62 | opens the highest segment as it is, or a first empty one; over segments of whole records it holds exactly those records |
| WriteAheadLogs.WriteAheadLog.WriteRecord | src/storage/WriteAheadLog.cpp:97-120 | appends one frame to the last segment and nothing else |
| WriteAheadLogs.WriteAheadLog.MaybeRotate | src/storage/WriteAheadLog.cpp:90-95 | opens a new segment exactly when the current one is full |
| WriteAheadLogs.WriteAheadLog.AppendLogEntry | src/storage/WriteAheadLog.cpp:122-128 | one log record, then rotation if the segment has reached its size; the records on disk grow by that one |
| WriteAheadLogs.WriteAheadLog.WriteHardState | src/storage/WriteAheadLog.cpp:130-134 | one hard-state record, no rotation |
| WriteAheadLogs.WriteAheadLog.WriteSnapshot | src/storage/WriteAheadLog.cpp:136-143 | one snapshot record and a new segment |
| WriteAheadLogs.WriteAheadLog.ReadFrame | src/storage/WriteAheadLog.cpp:168-190 | the reads of one frame, ending at a short header, a short payload or a wrong checksum |
| WriteAheadLogs.WriteAheadLog.PopBack | src/storage/WriteAheadLog.cpp:202-204 | the loop that pops recovered entries from the back |
| WriteAheadLogs.WriteAheadLog.RecoverSegment | src/storage/WriteAheadLog.cpp:167-221 | the frame loop replays the records readable in the segment |
| WriteAheadLogs.WriteAheadLog.RecoverAll | src/storage/WriteAheadLog.cpp:149-224 | recovery is the fold of all records readable in the segments, in order, and with a lossless codec of all records written |
| NodeOnDisk.Reboot | src/raft/RaftNode.cpp:24-40 | from files that hold a node's records recovery gives the restarted node's term, vote and log, and appending the entries again leaves the restarted node's records in the files |
| RpcFrames.EncodeEncodes | src/raft/RaftRPC.cpp:117-126 | the encoding holds type, number, length and payload where the decoder looks for them |
| RpcFrames.FrameInFull | src/raft/RaftRPC.cpp:117-126 | all bytes of one frame, low bytes first |
| RpcFrames.DecodeStable | src/raft/RaftRPC.cpp:128-139 | bytes that arrive later never change what has been decoded |
| RpcFrames.DecodeInPieces | src/raft/RaftPeer.cpp:91-107 | decoding a stream piece by piece with a carried-over rest is decoding it at once, for any bytes |
| RpcFrames.StreamDecodes | src/raft/RaftRPC.cpp:117-139 | for any frames received up to any byte: the whole ones in order, and a strict prefix of the next one left |
| RpcFrames.ResolvedByFirstReply | src/raft/RaftPeer.cpp:97-104 | a pending call is resolved once, by the first reply with its number, and no other call changes |
| RpcFrames.RepliesResolveTheirCalls | src/raft/RaftRpcServer.cpp:74-93 | replies with the heads the server sends resolve exactly the pending calls whose numbers the requests carried, each with the reply to the first request of its number |
| RpcFrames.RaftPeer.Receive | src/raft/RaftPeer.cpp:89-108 | after any pieces the buffer and the frames delivered are those of the whole stream, and calls are resolved in order |
| RpcFrames.RaftPeer.RecvLoop | src/raft/RaftPeer.cpp:77-110 | over the whole loop until the peer closes: of any frames sent, those wholly received come out in order with a strict prefix of the next one left, and the pending calls are resolved by them in order |
| RpcFrames.NothingAfterClose | src/raft/RaftPeer.cpp:82-88 | what is received is every piece before the first empty one and nothing after it |
| RpcFrames.ServesAllIff | src/raft/RaftRpcServer.cpp:69-95 | the server leaves no whole frame in its buffer if and only if every frame but the last is a request |
| RpcFrames.RequestBehindOtherWaits | src/raft/RaftRpcServer.cpp:88-90 | a whole request behind a frame of another type is not served until more input arrives |
| RpcFrames.RaftRpcServer.Serve | src/raft/RaftRpcServer.cpp:67-95 | as long as only requests arrive they are served in order whatever the pieces, each with one reply of the matching type and the request's number |
| RpcFrames.RaftRpcServer.HandleConn | src/raft/RaftRpcServer.cpp:59-97 | the same over the whole connection |
| KeyOrder.FirstDifferenceDecides | src/storage/KVStore.cpp:67-68 | the first character in which two keys differ decides their order, and without one the shorter comes first |
| KeyOrder.Contiguous | src/storage/KVStore.cpp:67-68 | between a prefix and a key that has it every key has it |
| KvStores.KVStore.Get | src/storage/KVStore.cpp:9-19 | the stored entry unless it is absent or expired |
| KvStores.KVStore.Put | src/storage/KVStore.cpp:21-48 | the map with the new entry, its version one more than the old, and the key order kept |
| KvStores.KVStore.Delete | src/storage/KVStore.cpp:50-57 | the map without the key, and whether it was there |
| KvStores.KVStore.ApplyEntry | src/raft/RaftNode.cpp:327-337 | the effect of one log entry on the store |
| KvStores.KVStore.Scan | src/storage/KVStore.cpp:59-74 | stored unexpired entries with the prefix only, in key order: all of them, or as many as `limit` (at least one) allows and then the first ones |
| KvStores.MatchesAreTheStoredOnes | src/storage/KVStore.cpp:59-74 | those matches are exactly the stored unexpired entries with the prefix, in key order |
| KvStores.KVStore.TakeSnapshot | src/storage/KVStore.cpp:122-137 | a snapshot that restores to exactly what has not expired |
| KvStores.KVStore.RestoreSnapshot | src/storage/KVStore.cpp:139-157 | the store becomes what the items say, a later item winning |
| KvStores.LoadKeepsLast | src/storage/KVStore.cpp:139-157 | of several items for a key the last one is restored |
| KvStores.LoadNothingElse | src/storage/KVStore.cpp:139-157 | a key without an item is absent |
| KvStores.SnapshotRoundTrip | src/storage/KVStore.cpp:122-157 | loading a snapshot of a store gives back its unexpired entries |
| StoreSpec.StoredIsLastWrite | src/storage/KVStore.cpp:21-57 | after any entries a key is stored if and only if the last entry that touches it is a Put, with that Put's value and index and the number of Puts since the last Delete as version |
| StoreSpec.VisibleUntilTtl | src/raft/RaftNode.cpp:330-333 | after any entries a stored key is visible exactly as long as its last Put asked, from the time that Put was applied, or for good without a positive time to live |
| StoreSpec.RestoredAsTheyWere | src/storage/KVStore.cpp:127-153 | a snapshot taken after the epoch restores every unexpired entry as it was, expiry included |
| StoreSpec.ReplicasAgree | src/storage/KVStore.cpp:21-57 | the same entries give the same values, versions and indices whatever the clocks |
| StoreSpec.SnapshotThenLog | src/raft/RaftNode.cpp:341-352 | snapshot plus suffix gives the same values, versions and indices as the whole log if and only if every key expired at the snapshot is deleted in the suffix |
| Base64Url.Base64UrlEncode | src/auth/JwtValidator.cpp:22-44 | the three loops give the unpadded encoding of section 5 of RFC 4648 |
| Base64Url.Base64UrlDecode | src/auth/JwtValidator.cpp:46-79 | defined on any input, and on an encoding it returns the encoded octets |
| Base64Url.RoundTrip | src/auth/JwtValidator.cpp:46-79 | decoding the encoding returns every octet string |
| Base64Url.EncodedUnique | src/auth/JwtValidator.cpp:22-44 | encoding is injective |
| Base64Laws.AlphabetIsStandard | src/auth/JwtValidator.cpp:19-43 | the symbols are those of table 2 of RFC 4648 |
| Base64Laws.VectorFoobar | src/auth/JwtValidator.cpp:22-44 | a vector of section 10 of RFC 4648, full groups |
| Base64Laws.VectorFooba | src/auth/JwtValidator.cpp:22-44 | a vector of that section with two octets left over |
| Base64Laws.VectorFoob | src/auth/JwtValidator.cpp:22-44 | a vector of that section with one octet left over |
| Base64Laws.ReencodesIffCanonical | src/auth/JwtValidator.cpp:46-79 | decoding and encoding again gives back the input if and only if it has symbols of the alphabet only, no group of one and no stray bits |
| Base64Laws.HighOctetsReadAsA | src/auth/JwtValidator.cpp:56-66 | octets from 128 on decode as the symbol of value zero |
| Base64Laws.ReadsGroupByGroup | src/auth/JwtValidator.cpp:67-77 | groups are read one after the other, up to the first whose first or second character has no value |
| Base64Laws.PaddingInsideIsRead | src/auth/JwtValidator.cpp:72-76 | a fourth character behind a third without value is read, with two bits set |

## Left out

- Time: timers, randomised timeouts, threads and condition variables. Progress is stated as what a majority can always do (Availability.ServesIffMajority), not as something that happens within a time or under a schedule.
- Runs with live compaction: cluster runs stay below the snapshot threshold, since `SetSnapshot` on a live log shifts the index map; there is no install-snapshot RPC to model.
- Crashes inside a critical section and crashes that lose completed writes: in a run a crash happens between two actions and keeps what was written; a crash inside one AppendAll is covered on the records alone (WalRecords.CrashDuringBatchKeepsIff).
- RaftNodes.RaftNode.HandleAppendEntries: entries must be numbered from the previous index on, as every sender numbers them, and indices must fit 64 bits.
- RaftNodes.RaftNode.HandleAppendReply: a hint with a term must name an index, as every sender's does, and indices must fit 64 bits.
- RaftNodes.RaftNode.Propose: appends and returns the index; the wait for the result is covered by Safety.OkIsTruthfulIff and Safety.AcknowledgedProposalStands.
- RaftNodes.RaftNode.constructor: a recovered snapshot is not restored into the store or the log; the write-ahead log must not hold one.
- WalFrames.FrameEncodes: payloads of 2^32 bytes and more are left out, whose length the original cuts to 32 bits.
- RpcFrames.EncodeEncodes: frames of 2^32 bytes and more are left out, where the original writes past its buffer.
- RpcFrames.DecodeStable: a declared length whose sum with the header does not fit 32 bits ends decoding, where the original reads past its buffer.
- RpcFrames.RaftRpcServer.Serve: which reply a request gets is left to the node; the model keeps type, number and order.
- WriteAheadLogs.TornRecovery: file names, failed writes and `fdatasync` are left out, and the JSON text inside a frame is any lossless codec.
- KvStores.KVStore.Put: creation and update times and watchers are left out; times are whole milliseconds.
- Terms, indices, versions and log lengths are unbounded numbers except where 64-bit subtraction decides a branch.
- The CAS endpoint, which changes the leader's store past the log, and `PurgeExpired`, which nothing calls.
- JSON serialisation, sockets, the HTTP server and its parser, routing, handlers, metrics, configuration, logging, token signatures and permissions.
