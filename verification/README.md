# Verification of the Raft bank cluster

This project models the replicated bank of the repository and proves its safety: the Raft cluster as a
state machine over nodes and an unreliable network, the bank that executes the committed log, the database
each node keeps, and the text form of its snapshots. `dafny verify dfyconfig.toml` checks everything.

## What is modelled

- **Cluster membership** (`Quorum.dfy`): the peer list, which may or may not hold the node itself, and the
  thresholds computed from its size. Five nodes whose lists hold themselves need four votes.
- **The state machine** (`Bank.dfy`, `Conservation.dfy`): transfers and balance reads with 32-bit
  arithmetic, and the fold of a log.
- **One node on values** (`NodeSpec.dfy`): what each critical section does to the node's fields.
- **The cluster** (`Cluster.dfy`): elections, votes, client appends, replication threads with their busy
  flags, AppendEntries and replies, the executor's batches, and crashes. A message once sent may be
  delivered at any time, any number of times, in any order, or never. Three history maps record every
  leadership, the first ballot of each voter per term, and what each node acknowledged in each term; no
  step reads them.
- **The invariant and its proof** (`Invariant.dfy`, `HistoryFacts.dfy`, `Frame.dfy`, `Steps.dfy`,
  `ElectionSteps.dfy`, `VoteSteps.dfy`, `ReplicationSteps.dfy`, `ReplySteps.dfy`), **the theorems over
  runs** (`Safety.dfy`) and their use on reachable states (`Reachable.dfy`).
- **Catch-up and the append loop** (`CatchUp.dfy`; as runs in `Reachable.dfy`), and **a compacted node against
  the same node with its full log** (`Compaction.dfy`).
- **The append loop over stored records** (`Records.dfy`), whatever indexes the entries carry, and **the two
  locked reads behind a message** (`StaleRead.dfy`).
- **What each step does**, stated on the cluster before and after (`Laws.dfy`), and **what executing an entry
  does** to each account (`Transfers.dfy`).
- **What a run can always still be made to do**: elect a node with a greatest log (`Electability.dfy`), bring a
  follower level with its leader (`Progress.dfy`), and serve any command on every node (`Serving.dfy`).
- **A run that elects, replicates, commits and executes** (`Witness.dfy`, with `Runs.dfy`).
- **The database** (`Text.dfy`, `Store.dfy`, `SnapshotText.dfy`) and **the node as an object over it**
  (`RaftNode.dfy`), whose methods, loops included, are proved to do what `NodeSpec` says, on compacted logs
  too, where a missing record reads as term 0.

How the main proof goes. A reign is what the elected leader of a term started with and how that log grew.
Every log is rooted: each entry, with everything before it, comes from the reign of its term; log matching
and rising terms follow. A committed index is a current-term entry which a quorum has acknowledged in that
term. Leader completeness is then an induction on terms inside one state. The steps only have to keep, for
each node, that what it acknowledged is still in its log if the leaders in between started with it.

Safety says what never happens. That it is not bought by doing nothing is the last result, which rests on most
of the others: `Serving.EveryCommandServed` continues any run of two nodes or more until a given command is
committed and executed everywhere, with nothing lost that anybody had committed.

Where the code differs from the usual account of Raft, the code is followed:

- A candidate that hears from the leader of its own term clears its vote and may vote again in that term
  (`Safety.VotesTwiceInOneTerm`). There is still one leader per term, because the reset needs a leader and
  never reaches one of its electors. `Safety.VoteLastsIff` says exactly when a vote lasts: over any stretch of
  a run in one term, it does if and only if no such reset lies in between.
- A follower bounds its commit index by its own last index, not by the last new entry. This is sound
  because a follower that holds no prefix of the leader's log parted from it at or below every
  prevLogIndex in flight to it (`Safety.DivergenceBelowMessages`).
- The header says the peer list leaves the node out; `main.cpp` puts it in. Both are covered.

Properties that are false of the code, with the exact condition:

- Conservation fails for a funded transfer to oneself and for a negative amount that overdraws the
  receiver; `Conservation.ConservesIff` says when it holds.
- Printed snapshots do not give back request records, whose bytes begin with a newline
  (`SnapshotText.RequestResultLost`). `SnapshotText.RoundTripIff` says when all records come back and
  `SnapshotText.DumpRestores` when all balances do.
- `prevLogIndex` is read under one lock and `nextIndex_` again under a second. `StaleRead.ContiguousIff` says
  what that can do to a follower whose log ends at `prevLogIndex`: it holds what the leader's new matchIndex says
  if `prevLogIndex` still was `nextIndex_ - 1` at the second read, and otherwise it has a hole in its log and its
  RAM and storage disagree. Only a node that lost and regained leadership in between can get there
  (`StaleRead.StoppedIff`), and it can: `StaleRead.StaleReadBreaks` is a run to such a state, where sending would
  commit two entries at the leader while the follower's index 1 is missing. The theorems over runs are about all
  runs in which the messages sent are contiguous: the cluster's send step asks for that and for nothing else.
- A redelivered message removes nothing that agrees with its leader as long as logs are full. After
  compaction it can: `Records.RedeliveryAfterCompaction` and `Records.RemovesIff`. In every reachable state
  `Compaction.ReachableAppendIff` says, by what the compacted follower still holds, which messages in flight it
  handles as a full one would.
- A compacted leader answers a lagging peer with a snapshot or with the right entries if and only if nextIndex
  is above 1 (`Compaction.ServesIff`). At 1 it sends blank entries and stays at 1 (`Compaction.StuckAtOne`).

Abstractions. Each mutex-held section is one step, and a crash happens between steps. `startElection`
updates and persists in one step. A message is built from one reading of the leader's log. Terms, indexes
and counters are unbounded; only balances are 32-bit. Nothing was executed.

## Model

| member | source | states |
|---|---|---|
| Serving.EveryCommandServed | src/raft/replication.cpp:146-162 | every run of two nodes or more can be continued until a given command, appended to a greatest log, is committed in a new term and every node has executed exactly that log; nothing committed or applied before is lost |
| Serving.RunTeaches | src/raft/replication.cpp:135-162 | a leader can bring its last entry to all peers in turn, and then it is committed |
| Serving.RunDrains | src/raft/replication.cpp:33-44 | a node that does not lead can end all its threads, and then no peer is marked busy |
| Electability.RunElects | src/raft/election.cpp:88-120 | every run of two nodes or more can be continued, by elections and votes alone, until a given node with a greatest log leads a later term than any before |
| Electability.SomeoneElectable | src/raft/election.cpp:144-160 | there always is such a node |
| Electability.AtLeastTotal | src/raft/election.cpp:150-155 | of any two logs one is up to date for the other |
| Electability.AtLeastTransitive | src/raft/election.cpp:150-155 | the up-to-date comparison is transitive |
| Electability.AtLeastBoth | src/raft/election.cpp:150-155 | two logs are up to date for each other if and only if they are equally long with the same last term |
| Electability.ExtensionGranted | src/raft/election.cpp:144-160 | in every reachable state a voter free in the term grants a candidate whose log extends its own |
| Progress.ReachableLevel | src/raft/replication.cpp:107-122 | every run can be continued until a follower has committed and executed all that its leader has committed, its state machine being what the leader's log folds to |
| Progress.HeartbeatCommits | src/raft/replication.cpp:253-256 | one exchange gives a follower that holds the leader's log the leader's commit index |
| Progress.RunExecutes | src/raft/execution.cpp:20-65 | a node can always execute all it has committed, two steps an entry |
| Laws.ElectionLaw | src/raft/election.cpp:49-93 | a new term, one's own vote, and a request with the log's end to every peer |
| Laws.VoteRequestLaw | src/raft/election.cpp:127-174 | the term rises to the request's, the vote is given exactly when free and the log is up to date, and the reply says so |
| Laws.VoteAnswerLaw | src/raft/election.cpp:102-120 | a later term makes a follower without a vote; a granted vote is counted and wins exactly at the threshold |
| Laws.ClientLaw | src/raft/request_handler.cpp:63-78 | a leader's log grows by the command in its term at the next index, and nobody else takes commands |
| Laws.SendLaw | src/raft/replication.cpp:97-117 | a message announces its leader's term and commit index and a hundred entries at most from nextIndex on |
| Laws.AppendLaw | src/raft/replication.cpp:177-261 | term, role, vote, reply, log and commit index after AppendEntries |
| Laws.AnswerLaw | src/raft/replication.cpp:125-171 | the leader ends in the later of the two terms, as a follower without a vote if it is the reply's; otherwise its tables move for that peer only and commit is the greatest index backed by as many as an election needs |
| Laws.FetchLaw | src/raft/execution.cpp:20-23 | the entries after lastApplied up to commitIndex are fetched, a hundred at most |
| Transfers.ApplyExecutes | src/raft/execution.cpp:34-60 | a payable transfer takes from the sender, gives to the receiver and touches no other account; an unfunded one and a balance read touch none; the result is stored |
| Transfers.ExecutedEntry | src/storage/rocksdb_store.cpp:279-304 | in every run executing does that for the log's entry right after lastApplied |
| Witness.SomeRunCommits | src/raft/replication.cpp:146-162 | for every command and both kinds of peer list there is a run of two nodes that elects a leader, replicates, commits and executes it |
| Quorum.QuorumsMeet | src/raft/election.cpp:92-93 | any two sets of members that reach the vote threshold share a member, for every cluster size and both kinds of peer list |
| Quorum.ThresholdAgainstMajority | src/main.cpp:248-251 | with the node listed an odd cluster needs one vote more than a majority; with it left out exactly a majority; twice the threshold always exceeds the cluster |
| Safety.RunOk | src/raft/node.cpp:9-48 | the invariant holds in every state of every run, crashes included |
| Safety.OneLeaderPerTerm | src/raft/election.cpp:105-118 | at most one node is ever leader in a term over a whole run |
| HistoryFacts.ElectionSafety | src/raft/election.cpp:115-119 | a candidate in a term that has a leader counts fewer votes than it needs |
| Safety.VotesTwiceInOneTerm | src/raft/replication.cpp:192-196 | after a same-term AppendEntries a candidate grants another vote in that term |
| Safety.VoteKeptIff | src/raft/election.cpp:144-181 | a step takes back a vote within its term if and only if it is a candidate's hearing from its own term's leader |
| Safety.VoteLastsIff | src/raft/election.cpp:144-181 | over any stretch of a run in one term a node's vote is the same at both ends if and only if no such step lies in between |
| ElectionSteps.ResetKeeps | src/raft/election.cpp:176-181 | the in-term vote reset keeps the whole invariant |
| VoteSteps.VoteReqKeeps | src/raft/election.cpp:127-174 | handling RequestVote keeps the whole invariant |
| VoteSteps.CrownKeeps | src/raft/election.cpp:188-204 | becoming leader keeps the whole invariant, with nextIndex at the log's end for every peer |
| ElectionSteps.ElectionKeeps | src/raft/election.cpp:49-93 | starting an election keeps the whole invariant from any role |
| Safety.LogMatching | src/raft/replication.cpp:198-250 | two logs with the same term at an index agree up to it |
| Safety.MessageMatching | src/raft/replication.cpp:107-117 | a message in flight that agrees in term with a log at an index agrees with it on all its entries up to there and on prevLogTerm |
| HistoryFacts.LeaderCompleteness | src/raft/election.cpp:144-160 | an index committed in a term is in the log every leader of a later term started with |
| HistoryFacts.UpToDateKeeps | src/raft/election.cpp:150-155 | the up-to-date test hands the voter's committed prefix on to the candidate |
| Safety.LeadersHoldCommitted | src/raft/replication.cpp:146-155 | a leader of a later term, whenever it leads, holds all that a node ever committed or applied |
| Safety.StateMachineSafety | src/raft/replication.cpp:233-256 | any two nodes, at any two moments, hold the same entries up to any index both have committed or applied |
| Safety.FollowerCommitSound | src/raft/replication.cpp:253-254 | no node of a term up to a present leader's has committed an entry that leader does not hold |
| Safety.DivergenceBelowMessages | src/raft/replication.cpp:101-105 | a follower without a prefix of the leader's log parted from it at or below nextIndex - 1 and every prevLogIndex in flight |
| ReplicationSteps.CommitBound | src/raft/replication.cpp:253-256 | min(leaderCommit, last index) after the append loop lies inside the leader's committed log |
| ReplicationSteps.TakenSettled | src/raft/replication.cpp:238-240 | truncation never reaches a committed or applied entry |
| ReplicationSteps.AppendReqKeeps | src/raft/replication.cpp:177-261 | handling AppendEntries keeps the whole invariant |
| ReplicationSteps.ClientKeeps | src/raft/request_handler.cpp:63-78 | a client append keeps the whole invariant |
| ReplicationSteps.BuiltArgsOk | src/raft/replication.cpp:101-117 | a message built with prevLogIndex = nextIndex - 1 is a slice of the leader's log and, without entries, announces no commit beyond it |
| Safety.MatchIndexTruthful | src/raft/replication.cpp:141-142 | a follower in the leader's term holds the leader's log up to matchIndex |
| ReplySteps.ScanExact | src/raft/replication.cpp:146-162 | the scan takes the greatest current-term index above commitIndex that a quorum holds, or changes nothing |
| ReplySteps.CommitsIsCommitted | src/raft/replication.cpp:149-155 | truthful matchIndex values make a scan hit a committed index |
| ReplySteps.AppendRepKeeps | src/raft/replication.cpp:125-171 | handling a reply keeps the whole invariant |
| Safety.SingleFlight | src/raft/replication.cpp:24-44 | at most one thread per peer, only under its flag, and its prevLogIndex is nextIndex - 1 through one leadership |
| Safety.RunMonotone | src/raft/node.cpp:28-29 | between any two states of a run terms and lastApplied never go back, nor does commitIndex without a crash |
| Safety.ReplicaAgreement | src/raft/execution.cpp:19-65 | balances and results are the fold of the log up to lastApplied, so equal lastApplied means equal state, across batches and crashes |
| Bank.FoldSplit | src/raft/execution.cpp:27-60 | applying a log in any two parts is applying it whole |
| Reachable.ReachableCatchesUp | src/raft/replication.cpp:164-169 | every run can be continued by one thread's steps and the deliveries of its messages, six for each of nextIndex - 1 - d refusals and one exchange per hundred entries, until the follower holds the leader's whole log |
| Reachable.RunRefuses | src/raft/replication.cpp:222-229 | down to the shared prefix those steps are refusals that leave the follower's log alone |
| Reachable.RunAdvances | src/raft/replication.cpp:97-142 | from there each exchange brings up to a hundred entries |
| CatchUp.CatchesUp | src/raft/replication.cpp:97-142 | the same for any leader and follower whose logs match and whose matchIndex is truthful |
| CatchUp.RefusesFirst | src/raft/replication.cpp:222-229 | the first exchanges, down to the shared prefix, are refusals that leave the follower's log alone |
| CatchUp.SpliceMeaning | src/raft/replication.cpp:234-250 | the append loop keeps the log up to the first conflict and continues as the message does, or changes nothing |
| CatchUp.SpliceIdempotent | src/raft/replication.cpp:234-250 | taking a message a second time changes nothing |
| ReplicationSteps.SpliceReign | src/raft/replication.cpp:236-244 | a slice of a leader's log never removes an entry that agrees with that leader |
| StaleRead.StaleReadBreaks | src/raft/replication.cpp:56-83 | for all commands there is a run to a state in which sending a stale prevLogIndex stores entry 2 under its own index with index 1 missing, RAM at 1 and storage at 2, and makes the leader commit both entries |
| StaleRead.ContiguousIff | src/raft/replication.cpp:61-117 | a follower whose log ends at prevLogIndex and accepts the message holds the leader's log up to the new matchIndex, in RAM and storage, if and only if prevLogIndex still was nextIndex - 1 at the second read, and is left with a hole otherwise |
| StaleRead.StoppedIff | src/raft/replication.cpp:55-87 | in a run the send step is closed to a thread only if its node leads in a later term than it first read |
| Compaction.AppendSameIff | src/raft/replication.cpp:198-256 | a follower that lost records 1..c handles a message as a full one, reply and log, if and only if the message is stale or does not start in the gap of a log that accepts it (from index 0: unless it agrees with the log and ends before it) |
| Compaction.ReachableAppendIff | src/raft/replication.cpp:198-256 | in every reachable state and for every c up to lastApplied: the message in flight is handled as with the full log if and only if it is stale or, by prev, its length and the records above c, loses nothing |
| Compaction.AppendAtStart | src/raft/replication.cpp:234-250 | a message from index 0 replaces a compacted log, and loses entries exactly when it agrees with the log and is shorter |
| Compaction.ReachableReplySame | src/raft/replication.cpp:146-162 | in every reachable state a compacted leader handles every reply, commit scan included, as with its full log |
| Compaction.RunFresh | src/raft/execution.cpp:20-23 | in every run a leader has applied only what is committed or older than its term, and fetched entries are committed |
| Compaction.EndSuffices | src/raft/election.cpp:144-160 | voting, standing for election and client appends do not notice compaction below the last entry |
| Compaction.CountSame | src/raft/election.cpp:102-120 | counting votes and winning do not notice compaction |
| Compaction.ExecutorSame | src/raft/execution.cpp:20-65 | fetching, applying and restarting do not notice compaction up to lastApplied |
| Compaction.ServesIff | src/raft/replication.cpp:61-105 | a compacted leader sends a snapshot or the message a full one would send, if and only if nextIndex is above 1 |
| Compaction.StuckAtOne | src/raft/replication.cpp:61-105 | with nextIndex 1 it sends a hundred blank entries and nextIndex stays 1 whatever the peer answers in that term |
| Conservation.LogConserves | src/raft/execution.cpp:34-60 | fair commands keep the total and every balance between 0 and it, within 32 bits |
| Conservation.FairDecision | src/raft/execution.cpp:40-42 | on such accounts the sums are exact, written balances are not negative, and -1 means no change |
| Conservation.ConservesIff | src/storage/rocksdb_store.cpp:285-290 | a command keeps the total if and only if it is harmless, for all non-negative accounts and defined arithmetic |
| Conservation.SelfTransferCreatesMoney | src/storage/rocksdb_store.cpp:285-290 | every funded transfer to oneself changes the total by its amount, or by the opposite of a negative amount that would overdraw |
| Conservation.GenesisIds | src/storage/rocksdb_store.cpp:62-64 | the genesis accounts are those numbered 1 to 9000 |
| Conservation.GenesisConserved | src/storage/rocksdb_store.cpp:62-64 | from genesis every prefix of a fair log keeps 900,000,000 |
| Reachable.ClusterConserves | src/raft/execution.cpp:60-65 | every node of every run whose applied entries are fair holds exactly 900,000,000 |
| Text.LogKeyInjective | src/storage/rocksdb_store.cpp:13-17 | different indexes have different log keys |
| Text.ReadsBack | src/storage/rocksdb_store.cpp:121-121 | a printed number is read back as itself |
| Store.RocksDBStore.TruncateLog | src/storage/rocksdb_store.cpp:149-158 | exactly the records from start to the cached last index go; the cache becomes start - 1 |
| Store.RocksDBStore.CompactLog | src/storage/rocksdb_store.cpp:232-247 | exactly the records up to the given index go; the last index stays |
| Store.RocksDBStore.AppendLogs | src/storage/rocksdb_store.cpp:129-146 | the batch is stored and the last index becomes the greatest seen |
| Store.BatchStores | src/storage/rocksdb_store.cpp:136-141 | a batch leaves the last of its entries under each index it carries |
| Store.BatchKeeps | src/storage/rocksdb_store.cpp:136-141 | and leaves every other index as it was |
| Store.BatchLast | src/storage/rocksdb_store.cpp:134-145 | the last index after a batch is the greatest of the old one and those of the batch |
| Store.RocksDBStore.InitializeGenesisData | src/storage/rocksdb_store.cpp:47-72 | 9000 accounts of 100000 are added unless account 1 exists |
| Store.RocksDBStore.ApplyTransaction | src/storage/rocksdb_store.cpp:279-304 | balances, result and lastApplied change together |
| Store.RocksDBStore.CreateSnapshot | src/storage/rocksdb_store.cpp:163-192 | the account and request records of one scan in key order, printed, at lastApplied with that entry's term |
| Store.RocksDBStore.ApplySnapshot | src/storage/rocksdb_store.cpp:195-229 | the accounts become what the text holds, lastApplied the snapshot's index |
| SnapshotText.RoundTripIff | src/storage/rocksdb_store.cpp:211-215 | printed records are read back if and only if all of them are newline-free |
| SnapshotText.MapRoundTrip | src/storage/rocksdb_store.cpp:175-190 | a map comes back from its printed form if and only if it is newline-free |
| SnapshotText.AccountsSurvive | src/storage/rocksdb_store.cpp:200-215 | a full dump restores the account records, whatever the request bytes are, if and only if they are newline-free and the request block read on its own writes none of them otherwise |
| SnapshotText.NoLineNoAccount | src/storage/rocksdb_store.cpp:211-215 | it writes none at all if no line of it begins like an account key |
| SnapshotText.DumpRestores | src/storage/rocksdb_store.cpp:251-257 | the dump of a scan restores the balances if and only if the ids are newline-free and the request block writes no balance otherwise |
| SnapshotText.ScanSplits | src/storage/rocksdb_store.cpp:180-188 | in a key-ordered scan what is dumped is all account records followed by all request records |
| SnapshotText.RequestResultLost | protos/raft.proto:23-26 | a request record whose bytes begin with a newline comes back blank, whatever else it and the records after it hold |
| SnapshotText.ReadRecords | src/storage/rocksdb_store.cpp:211-215 | the getline loop writes the parsed records one after the other |
| SnapshotText.WriteRecords | src/storage/rocksdb_store.cpp:180-188 | the scan loop prints the account and request records in order |
| Raft.RaftNode.constructor | src/raft/node.cpp:9-29 | RAM equals storage after boot, the rest starts empty |
| Raft.Reboot | src/raft/node.cpp:12-29 | a restart reloads exactly the term, vote, last index, last term and lastApplied that were in RAM |
| Raft.RaftNode.StartElection | src/raft/election.cpp:49-90 | the method does what the protocol step says and RAM agrees with storage |
| Raft.RaftNode.HandleRequestVote | src/raft/election.cpp:127-174 | the same for RequestVote |
| Raft.RaftNode.CountVote | src/raft/election.cpp:102-120 | the same for a vote reply |
| Raft.RaftNode.BecomeLeader | src/raft/election.cpp:188-204 | the same for the leader tables |
| Raft.RaftNode.BecomeFollower | src/raft/election.cpp:176-181 | the same for stepping down |
| Raft.RaftNode.HandleAppendEntries | src/raft/replication.cpp:177-261 | accepts exactly a current message whose prev matches; the records are then what the append loop makes of entries with any indexes, and for contiguous ones the method does what the protocol step says |
| Records.TookAllReads | src/raft/replication.cpp:234-250 | contiguous entries leave RAM and storage in step and the log read back is the splice |
| Records.TookPast | src/storage/rocksdb_store.cpp:112-127 | appended at the end of a log, entries are stored under the indexes they carry while RAM counts positions |
| Raft.RaftNode.HandleAppendReply | src/raft/replication.cpp:125-171 | the same for a reply with its commit scan |
| Raft.RaftNode.ScanCommit | src/raft/replication.cpp:146-162 | the scan loop computes the specified scan |
| Raft.RaftNode.CountHolders | src/raft/replication.cpp:149-152 | the loop counts the node itself and the peers whose matchIndex reaches the index |
| Raft.RaftNode.BuildMessage | src/raft/replication.cpp:92-117 | the batching loop builds the specified message |
| Raft.RaftNode.ProcessClientRequest | src/raft/request_handler.cpp:63-78 | the leader's log grows by the command, RAM agrees with storage |
| Raft.RaftNode.FetchBatch | src/raft/execution.cpp:20-23 | the next committed entries, at most a hundred |
| Raft.RaftNode.ApplyEntry | src/raft/execution.cpp:28-102 | one entry is one step of the fold; at every thousandth exactly the records above lastApplied - 100 stay, otherwise all |
| Raft.RaftNode.ApplyBatch | src/raft/execution.cpp:27-104 | a batch is the fold of its entries, with storage consistent between any two, and the log afterwards is the one before cut at the last compaction |
| Records.RetainedServes | src/raft/execution.cpp:80-96 | what compaction leaves covers the executor, the term read at boot and the snapshot's term |
| Raft.RaftNode.HandleInstallSnapshot | src/raft/snapshot.cpp:51-111 | installs exactly for a current term and a newer index; accounts, log end and indices become the snapshot's; a later term makes a follower without a vote, and no node comes to lead or to lead another term |
| Raft.RaftNode.HandleSnapshotReply | src/raft/snapshot.cpp:31-47 | a later term makes a follower without a vote; otherwise a leader's matchIndex for that peer rises to the snapshot's index and nextIndex follows it, without a term check, and no other entry moves |
| Raft.AnchorHarmless | src/raft/snapshot.cpp:96-107 | executing the anchor entry moves no money |
| Raft.InstallThenAppend | src/raft/snapshot.cpp:82-107 | after an install the next AppendEntries at that index is accepted, and the follower's accounts are the leader's if and only if the dump restores them |
| Records.RemovesIff | src/raft/replication.cpp:236-244 | exactly when one turn of the append loop removes a stored record |
| Records.RedeliveryAfterCompaction | src/raft/execution.cpp:94-96 | once record 1 is compacted, any message from the beginning delivered again leaves its own entries and nothing else |

## Left out

- InstallSnapshot inside the cluster-wide theorems: an install drops the whole suffix of the log and its reply is not checked for the term; it is covered for one node and one pair.
- Compaction inside the cluster-wide theorems: runs keep full logs; `Compaction.dfy` compares a compacted node with a full one step by step in every reachable state.
- Raft.RaftNode.BuildMessage: reads the leader's log at one moment, while the source reads it after releasing the lock.
- Raft.RaftNode.HandleAppendEntries: after entries that are not contiguous only the records are described; the other methods expect RAM and storage in step.
- Store.RocksDBStore.CreateSnapshot: the bytes of a request record may be anything, since protobuf encoding is not modelled.
- Store.RocksDBStore.ApplySnapshot: does not model keys other than account keys that a misaligned text may write, nor the protobuf decoding of request records, whose result is a parameter.
- Serving.EveryCommandServed: says that the run can be continued so, not that it must be; there is no liveness claim under timing.
- Conservation.ConservesIff: assumes that the two sums fit in 32 bits, since C++ leaves overflow undefined.
- Messages that are not contiguous: the cluster's send step excludes them, as said above.
- Request deduplication and pending callbacks: the executor applies duplicates, so there is no exactly-once claim.
- The executor running while a snapshot is installed.
- Overflow of terms, log indexes and vote counters.
- gRPC, TCP gateway, sessions, timers, random timeouts and deadlines: an election and a failed call are steps that may happen at any time.
- RocksDB internals and disk sync: the database is a value whose batch writes are atomic.
- Logging, benchmark, client retries, menu and CSV workloads.
