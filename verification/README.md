# zDB: consensus, shard placement, clerk and lock, in Dafny

zDB replicates a versioned key-value store with Raft. Clients reach it through a retrying clerk, a
lock is built on top of the store, and shards are spread over replica groups by a rebalancing
routine. This project models these parts and proves what they promise. Every proof holds for all
inputs and all runs of the model.

- **Raft** (`Raft*.dfy`). One server is a value (`RaftNode`), with one function for each section of
  the code that holds the node lock. `RaftServer` has the classes that carry out the same sections
  in place, each method tied to its function and to what it leaves on disk. `RaftCluster` puts any
  number of servers on a network that may lose, repeat, delay and reorder messages; any server may
  die between two sections, or between the two saves of one handler, and restart from its disk. The
  apply loop, the one-slot channel and its consumer are part of each server. `RaftInvariant` states
  what every reachable state satisfies, relative to a ledger of what each term's leader wrote; the
  `*Steps` modules show that every step keeps it, and `RaftTheorems`, `RaftReplies`,
  `RaftBacktracking`, `RaftAlivePeer` and `RaftReplicas` draw the conclusions. `RaftDecisions` says
  exactly what every section decides in a reachable state, in terms of the entries of the logs;
  `RaftMajority` when votes make a leader; `RaftCommands` that every entry is a command of a client
  and written once. `RaftRecovery` and `RaftProgress` show that no reachable state is a dead end.
  `RaftWitness`, `RaftKilledPeer` and `RaftTwoLeaders` construct runs: one that works, and the ones
  in which a promise fails.
  `RaftMerge` and `RaftCompaction` are about the log of one server: repeated and reordered merges,
  and trimming.
- **Shards** (`Shard*.dfy`). `ShardLoads` counts and prices imbalance, `ShardRebalance` proves what
  rebalancing does and that no assignment does it with fewer moves, and `ShardConfig` has the class
  with its array and map.
- **Store, clerk and lock** (`KvStore`, `KvModel`, `Clerk`, `ClerkLoops`, `ClerkObjects`, `Lock`,
  `LockProgress`). The store, the specification that histories are checked against one key at a
  time, the retry loops as functions of everything the network may do, when exactly they go on, and
  the objects that carry them out, and the lock as a state machine over any number of clients, which
  any of them can come to hold.

## What is assumed

- A persister's load returns the last save.
- The member list of a cluster is the same on all servers and includes the server itself. The
  cluster theorems are for 1 to 255 servers, because the code keeps the cluster size in eight bits;
  `RaftTwoLeaders.ElectionsSafeIff` shows that election safety stops at 256.
- On the client path an attempt takes effect at most once, and before its result or timeout is
  reported; an attempt reported as unavailable or sent to a wrong leader was not executed. Lock
  tokens are unique, and a client calls acquire only outside acquire and release.
- The conflict fields of an append reply are uninitialised in the code unless the follower really
  compared logs, so the model lets them hold anything (`garbage`).

## Where the code falls short of a promise

- Backtracking is bounded exactly unless the peer was killed in the leader's term and still answers:
  `RaftBacktracking.BacktrackingBoundIff`. In runs that never kill the peer it is exact and ends
  (`RaftAlivePeer`); `RaftKilledPeer.KilledPeerRejectsForever` has runs in which a killed peer keeps its
  leader trying any number of times and sends it forward.
- Election safety holds exactly up to 255 servers: `RaftTwoLeaders.ElectionsSafeIff`, with a run that
  elects two leaders of one term in every wider cluster.
- A cluster of one server never elects a leader, because votes are only counted when a peer answers:
  `RaftMajority.SoleServerNeverLeads`. More than half of the votes always make a leader, and commands
  can always still be served, exactly in clusters of two or more: `RaftMajority.MajorityLeadsIff`,
  `RaftProgress.AlwaysOpenIff`.
- A version mismatch reported by `set` proves that nothing was written exactly when at most one
  service is tried: `Clerk.MismatchTrustedIff`, `Clerk.ForgottenTimeout`.
- A compacted follower's rejection hint differs from an uncompacted one's exactly when the rejected
  entry is at the cut or of the term at the cut: `RaftCompaction.HintSameIff`. A compacted leader
  resumes elsewhere for some log it may stand for exactly when the hinted term is not visible to it:
  `RaftCompaction.BacktracksAlikeIff`, `RaftCompaction.HiddenTerm`.

## Model

| member | source | states |
|---|---|---|
| RaftTheorems.StateMachineSafety | src/include/raft/RaftImpl.hpp:363-392 | In every run, with loss, repetition, reordering, crashes and restarts, two entries applied at the same index by any servers in any of their lives are the same entry |
| RaftTheorems.LeaderCompleteness | src/include/raft/RaftImpl.hpp:513-530 | What a server knows to be committed at one moment is a prefix of the log of every leader of that term or a later one, then and ever after |
| RaftTheorems.EarlierLeaderComplete | src/include/raft/RaftImpl.hpp:513-530 | What a server of an earlier term comes to know as committed was already in the log of every leader of a later term seen before |
| RaftTheorems.CommittedPrefixesAgree | src/include/raft/RaftImpl.hpp:278-311 | The committed prefixes of any two servers at any two moments of a run are prefixes of one another |
| RaftTheorems.ElectionSafety | src/include/raft/RaftImpl.hpp:576-631 | Leaders of the same term at two moments of a run are the same server |
| RaftTheorems.VotesCountedOnce | src/include/raft/RaftImpl.hpp:548-631 | A candidate's vote count is the number of different servers that are bound to it in that term, and its log is still the one it stood with and its requests describe |
| RaftTheorems.WinnerHasMajority | src/include/raft/RaftImpl.hpp:614-629 | A leader was made by more than half of the servers, all different and bound to it in its term, and its log extends the one it stood with |
| RaftTheorems.LeaderAppendOnly | src/include/raft/RaftImpl.hpp:634-660 | While a server leads a term its log only grows |
| RaftTheorems.LogMatching | src/raft/Log.cpp:37-58 | Logs of any servers at any two moments that have an entry of the same term at the same index are identical up to it |
| RaftTheorems.LogsOrdered | src/include/raft/RaftImpl.hpp:634-660 | Every log is numbered from 1 without gaps and its terms never fall |
| RaftTheorems.MatchIndexSound | src/include/raft/RaftImpl.hpp:513-515 | A leader's matchIndex k for a peer means that the peer's log begins with the leader's first k entries for as long as the peer stays in that term, restarts included |
| RaftTheorems.CommitSound | src/include/raft/RaftImpl.hpp:306-307 | Every append request ever sent has leaderCommit at most prevLogIndex plus its entries; between restarts a commit index never falls, never exceeds the last index, and the entries below it never change |
| RaftTheorems.AppendRaisesCommit | src/include/raft/RaftImpl.hpp:296-310 | A follower's commit index moves only within what the request carried, over entries that are the ones the leader of that term wrote |
| RaftTheorems.CommitMonotone | src/include/raft/RaftImpl.hpp:306-307 | From any reachable state, steps other than a restart of the server never lower its commit index |
| RaftTheorems.DiskMatchesMemory | src/include/raft/RaftImpl.hpp:695-731 | After every step of every run the disk holds exactly the term, vote and log in memory and no snapshot, and a restart resumes with them |
| RaftReplies.VoteReplyBacked | src/include/raft/RaftImpl.hpp:252-261 | Whenever a granted vote has been sent, the voter's disk has a later term, or that term with that vote |
| RaftReplies.AppendReplyBacked | src/include/raft/RaftImpl.hpp:296-305 | Whenever a success has been sent, the follower's disk has a later term, or that term with the acknowledged entries where they belong |
| RaftTheorems.RequestsSound | src/include/raft/RaftImpl.hpp:411-441 | In every run each append request ever sent numbers its entries from prevLogIndex on, with terms that never fall, starting no lower than prevLogTerm and ending no higher than its own term |
| RaftProgress.NeverStuck | src/include/raft/RaftImpl.hpp:237-660 | From every reachable state of 2 to 255 servers, whatever was lost or killed, there is a continuation after which every server has consumed any given command at the same position |
| RaftProgress.AlwaysOpenIff | src/include/raft/RaftImpl.hpp:598-629 | After every run any command can still be consumed by all servers if and only if there are at least two |
| RaftRecovery.CanElect | src/include/raft/RaftImpl.hpp:548-631 | From every reachable state of two or more servers there is a continuation that elects a server whose log all others accept |
| RaftCommands.StartAppends | src/include/raft/RaftImpl.hpp:634-660 | In every run exactly the live leaders take commands, and then their log, in memory and on disk, is the old one followed by the command under the next index and the current term |
| RaftCommands.EntryWritten | src/include/raft/RaftImpl.hpp:645-653 | In every run every entry of every log is the command of an earlier client step at the leader of its term, whose log then ended right before its index |
| RaftCommands.WrittenOnce | src/include/raft/RaftImpl.hpp:645-653 | Two entries come from the same step if and only if they have the same index and term, and then they are the same entry |
| RaftCommands.ConsumedWritten | src/include/raft/RaftImpl.hpp:363-392 | At each position, what any two replicas have consumed at any two moments is the command of one and the same client step |
| RaftDecisions.VoteGrantedIff | src/include/raft/RaftImpl.hpp:237-275 | In every run a live voter not past the term grants its vote if and only if it has not voted for another in that term and the candidate's last term and index are lexicographically no less than its own; the new state and disk in every case |
| RaftDecisions.VoteRepeats | src/include/raft/RaftImpl.hpp:250-261 | Handling a vote request a second time changes nothing and gives the same answer |
| RaftDecisions.GrantedAgainIff | src/include/raft/RaftImpl.hpp:268-275 | In every run a voter alive in the term in which it granted a request grants it again if and only if its log has not become newer than the candidate's |
| RaftDecisions.SomeoneAcceptable | src/include/raft/RaftImpl.hpp:273-275 | Of any set of servers there is one whose log all of them accept |
| RaftDecisions.EntriesTakenIff | src/include/raft/RaftImpl.hpp:278-323 | In every run a live follower not past the term takes entries if and only if it has the preceding entry; its log is then unchanged where it contains them and else ends with them, its commit index is the larger of its own and the leader's, and a refusal names the term found and where it begins |
| RaftDecisions.SuccessRecorded | src/include/raft/RaftImpl.hpp:513-530 | In every run a success in the live leader's term sets matchIndex and nextIndex of the peer and commits exactly the last entry of the term that more than half are known to hold, if that is beyond the commit index |
| RaftDecisions.AppendReplyExact | src/include/raft/RaftImpl.hpp:492-543 | In every run: what is ignored, what makes the leader follow, what is recorded, and where a refusal sends the next index, for every answer |
| RaftDecisions.VoteReplyExact | src/include/raft/RaftImpl.hpp:598-629 | In every run: what is ignored, what makes the candidate follow, and what is counted; a counted vote makes it leader if and only if the votes are then more than half |
| RaftDecisions.LeaderAlwaysSends | src/include/raft/RaftImpl.hpp:411-441 | In every run a live leader has a request for every peer it is not waiting for, with everything from its next index on |
| RaftMajority.MajorityLeadsIff | src/include/raft/RaftImpl.hpp:614-629 | No candidate stays one with more than half of the votes, in any run, if and only if there are at least two servers |
| RaftMajority.SoleServerNeverLeads | src/include/raft/RaftImpl.hpp:576-629 | In every run of a cluster of one there is no leader |
| RaftSafety.StepInv | src/include/raft/RaftImpl.hpp:218-660 | Every step of every kind keeps the cluster invariant and only adds to history |
| RaftSafety.RunInv | src/include/raft/RaftImpl.hpp:218-660 | Every run keeps the invariant |
| RaftSafety.InitInv | src/include/raft/RaftImpl.hpp:103-129 | The invariant holds of a cluster of 1 to 255 freshly constructed servers |
| RaftVictory.WinnerComplete | src/include/raft/RaftImpl.hpp:268-275 | The log of a candidate with a majority of ballots contains everything that was or may still be chosen in an earlier term |
| RaftVictory.KeepsReceiveVote | src/include/raft/RaftImpl.hpp:598-629 | Processing a vote reply, winning or not, keeps the invariant |
| RaftAppendSteps.KeepsAppend | src/include/raft/RaftImpl.hpp:278-323 | Handling any append request ever sent, however late or often, keeps the invariant |
| RaftCommitSteps.KeepsReceiveAppend | src/include/raft/RaftImpl.hpp:492-543 | Processing an append reply, with the commit scan or the backtracking, keeps the invariant |
| RaftCommitSteps.KeepsClientStart | src/include/raft/RaftImpl.hpp:634-660 | A leader that appends a client command keeps the invariant |
| RaftCommitSteps.CommitScanFinds | src/include/raft/RaftImpl.hpp:516-530 | The scan either leaves the commit index or moves it to a current-term index that a majority of matchIndex, with the leader, reaches |
| RaftCommitSteps.CommitScanHighest | src/include/raft/RaftImpl.hpp:516-530 | No current-term index above the one found, up to the end of the log, is reached by a majority |
| RaftElectionSteps.KeepsVote | src/include/raft/RaftImpl.hpp:237-265 | Handling any vote request ever sent keeps the invariant |
| RaftElectionSteps.KeepsTimeout | src/include/raft/RaftImpl.hpp:548-573 | Standing for election keeps the invariant |
| RaftLocalSteps.KeepsRestart | src/include/raft/RaftImpl.hpp:707-731 | A restart from disk, at any moment, keeps the invariant |
| RaftLocalSteps.KeepsCrashInHandler | src/include/raft/RaftImpl.hpp:218-265 | Dying between the two saves of one handler keeps the invariant |
| RaftAlivePeer.AlivePeerExact | src/include/raft/RaftImpl.hpp:534-541 | In every run in which the peer is never killed, a processed rejection in the leader's term sets nextIndex strictly below its old value and above the longest common prefix of the leader's log and the log the peer compared |
| RaftAlivePeer.AlivePeerEnds | src/include/raft/RaftImpl.hpp:534-541 | In every such run, while a leader keeps its term and hears only rejections from the peer, it hears fewer than its nextIndex for that peer |
| RaftBacktracking.BacktrackingExact | src/include/raft/RaftImpl.hpp:313-321 | The first of these in every run, for a rejection by a handler that got as far as comparing logs, killed later or not |
| RaftBacktracking.BacktrackingEnds | src/include/raft/RaftImpl.hpp:534-541 | The second of these in every run, for rejections by such handlers |
| RaftBacktracking.BacktrackingBoundIff | src/include/raft/RaftImpl.hpp:278-323 | In every run, when a peer not past the term answers an outstanding call, a rejection moves nextIndex back and not below the common prefix for every value of the uninitialised fields, if and only if the peer was not killed in that term |
| RaftBacktracking.BoundedIffAlive | src/include/raft/RaftImpl.hpp:534-541 | The same for any leader and peer whose logs are grounded in one ledger |
| RaftBacktracking.BacktrackExact | src/include/raft/RaftImpl.hpp:313-321 | For any two logs grounded in the ledger that disagree at prev, the hint and the leader's use of it land between the common prefix plus one and prev |
| RaftBacktracking.AcceptsIffCommon | src/include/raft/RaftImpl.hpp:296-297 | The consistency test passes exactly when prevLogIndex lies within the longest common prefix |
| RaftLog.TermFirstFinds | src/raft/Log.cpp:78-85 | On a gap-free log, trimmed or not, the index of the first entry of the term, and 0 exactly when there is none |
| RaftLog.TermLastFinds | src/raft/Log.cpp:87-98 | On a gap-free log, trimmed or not, the index of the last entry of the term, and 0 exactly when there is none |
| RaftBacktracking.UnreadRejectionMisleads | src/include/raft/RaftImpl.hpp:280-282 | A killed peer's reply can send nextIndex to any position of the leader's log |
| RaftKilledPeer.KilledPeerRejectsForever | src/include/raft/RaftImpl.hpp:280-282 | For any k there is a run of two servers in which a leader keeps its term, hears k rejections from a killed peer, and ends with a higher nextIndex for it |
| RaftReplicas.PipelineConserves | src/include/raft/RaftImpl.hpp:363-392 | In every run, commands consumed followed by the one in the channel slot are exactly the log's commands up to lastApplied, plus the one sent but not yet recorded |
| RaftReplicas.ReplicasAgree | src/raft/Rsm.cpp:25-37 | Of two replicas at any two moments, one has consumed a prefix of the other; having consumed equally many, any deterministic machine is in the same state on both |
| RaftWitness.SomeRunApplies | src/include/raft/RaftImpl.hpp:363-660 | For any command there is a run of two servers that elects a leader, replicates, commits and applies it |
| RaftQuorum.MajoritiesMeetIff | src/include/raft/Raft.hpp:60-61 | Any two sets the code counts as a majority share a server if and only if there are at most 255 servers |
| RaftTwoLeaders.ElectionsSafeIff | src/include/raft/RaftImpl.hpp:614-629 | Leaders of one term at any two moments of any run are the same server if and only if there are at most 255 servers |
| RaftTwoLeaders.WideClusterSplits | src/include/raft/Raft.hpp:60-61 | Every cluster of more than 255 servers has a run that ends with two leaders of one term |
| RaftLog.MergeIsOverlay | src/raft/Log.cpp:37-58 | On gap-free logs the merge loop changes nothing when the incoming entries are all there and otherwise yields the agreed prefix followed by all of them |
| RaftLog.PositionContiguous | src/raft/Log.cpp:137-143 | On a gap-free log the search for an index is arithmetic, found or not |
| RaftMerge.DeliveriesCatchUp | src/raft/Log.cpp:37-58 | Any number of suffixes of one leader's growing log, in any order with repetitions, each accepted on the log it meets when it arrives, leave the log of the longest one, or the old log where that already contains it |
| RaftMerge.OrderIrrelevant | src/raft/Log.cpp:37-58 | Two such delivery orders with the same newest message give the same log |
| RaftMerge.StaleChangesNothing | src/raft/Log.cpp:43-56 | An accepted suffix no longer than one already merged removes and adds nothing |
| RaftMerge.StaysAccepted | src/raft/Log.cpp:37-58 | What is acceptable now is acceptable after any further deliveries |
| RaftCompaction.CompactionInvisible | src/include/raft/RaftImpl.hpp:663-692 | Over a whole run of sections above the cut, a server that compacts as it goes gives the same replies, requests and results as one that never does, and stands for the same log |
| RaftCompaction.SectionStaysTwin | src/include/raft/RaftImpl.hpp:237-692 | Any one section above the cut answers alike on a compacted server and its uncompacted twin and leads to twins again |
| RaftCompaction.TwinCompact | src/include/raft/RaftImpl.hpp:663-692 | A snapshot keeps the log the server stands for, moves the cut exactly to its index, and always finds the entry it takes the term from |
| RaftCompaction.SameLast | src/raft/Log.cpp:60-67 | Last index and last term are those of the whole log |
| RaftCompaction.SameAt | src/raft/Log.cpp:128-135 | Lookups above the cut answer as on the whole log |
| RaftCompaction.SameSuffix | src/raft/Log.cpp:100-108 | Suffixes from above the cut are those of the whole log |
| RaftCompaction.SameVote | src/include/raft/RaftImpl.hpp:273-275 | The vote decision is that of the whole log, for every candidate |
| RaftCompaction.SameAcceptance | src/include/raft/RaftImpl.hpp:296-297 | For prevLogIndex at or above the cut the consistency test answers as on the whole log, and exactly when the whole log has that term there |
| RaftCompaction.SameMerge | src/raft/Log.cpp:37-58 | Merging at or above the cut commutes with trimming |
| RaftCompaction.BacktracksAlikeIff | src/include/raft/RaftImpl.hpp:534-541 | A compacted leader resumes where the whole log would, for every hinted index and every whole log it may stand for, if and only if the hinted term is visible to it |
| RaftCompaction.BacktrackSameIff | src/include/raft/RaftImpl.hpp:534-541 | For one whole log and one term, the two positions agree for every hinted index if and only if the last entry of the term is found alike |
| RaftCompaction.HiddenTerm | src/include/raft/RaftImpl.hpp:534-541 | For any term that is not visible, a whole log for which a hint sends the compacted leader back to 1 and the other one not |
| RaftCompaction.SameBacktrack | src/include/raft/RaftImpl.hpp:534-541 | With a visible term the two positions are the same |
| RaftCompaction.HintSameIff | src/include/raft/RaftImpl.hpp:313-321 | A compacted follower's hint is the uncompacted one's if and only if the rejected index is above the cut and its entry is not of the term at the cut |
| RaftCompaction.SavedLogRestored | src/include/raft/RaftImpl.hpp:695-731 | Reading back a saved compacted server restores its log, term and vote, and saving again saves the same |
| RaftCompaction.SnapshotSurvives | src/include/raft/RaftImpl.hpp:663-731 | A snapshot is taken if and only if the server is live, none is pending and its index is from the cut to the end of the log; a restart then finds its data, pending unless empty, its index and term, and exactly the entries after it |
| RaftServer.Log.MergeWith | src/raft/Log.cpp:37-58 | The loop in place computes the merge, and does nothing to a log merged with itself |
| RaftServer.Log.Trim | src/raft/Log.cpp:110-120 | Trimming in place keeps what follows the index and records the cut |
| RaftServer.RaftImpl.constructor | src/include/raft/RaftImpl.hpp:103-129 | A new server is the boot state of what its disk holds, with the list length in eight bits |
| RaftServer.RaftImpl.Persist | src/include/raft/RaftImpl.hpp:695-704 | The disk holds the node's durable part; nothing else changes |
| RaftServer.RaftImpl.ReadPersist | src/include/raft/RaftImpl.hpp:707-731 | The durable part is restored, unless killed or a snapshot is pending |
| RaftServer.RaftImpl.StepDown | src/include/raft/RaftImpl.hpp:218-234 | A newer term is adopted and saved; an older or equal one changes nothing |
| RaftServer.RaftImpl.RequestVoteHandler | src/include/raft/RaftImpl.hpp:237-275 | The vote is granted exactly when the server is live, has not passed the term or voted for another in it, and its last term and index are not higher; new state, reply and disk are those of the section the cluster proofs use |
| RaftServer.RaftImpl.AppendEntriesHandler | src/include/raft/RaftImpl.hpp:278-323 | New state, reply and disk are those of the section the cluster proofs use |
| RaftServer.RaftImpl.StartElection | src/include/raft/RaftImpl.hpp:548-573 | New state and disk are those of standing for election |
| RaftServer.RaftImpl.ProcessVoteReply | src/include/raft/RaftImpl.hpp:598-629 | New state and disk are those of counting a vote |
| RaftServer.RaftImpl.ProcessAppendReply | src/include/raft/RaftImpl.hpp:492-543 | A success in the leader's term sets matchIndex and nextIndex of the peer; new state and disk are those of processing an append reply |
| RaftServer.RaftImpl.AdvanceCommit | src/include/raft/RaftImpl.hpp:516-530 | The downward loop sets the commit index to what the scan finds |
| RaftServer.CountMatches | src/include/raft/RaftImpl.hpp:517-522 | The inner loop counts the leader and every peer whose matchIndex reaches the index |
| RaftServer.RaftImpl.Start | src/include/raft/RaftImpl.hpp:634-660 | A leader appends the given command under the next index and its term and saves it; anyone else refuses and changes nothing |
| RaftServer.RaftImpl.Snapshot | src/include/raft/RaftImpl.hpp:663-692 | New state and disk are those of compacting, refreshing or ignoring the snapshot |
| ShardRebalance.RebalanceOptimal | 6.5840/src/shardkv1/shardcfg/shardcfg.go:122-154 | From any assignment, with or without unassigned shards, rebalancing moves exactly as many shards as the loads demand, and every even assignment differs from the old one in at least as many |
| ShardRebalance.MovesWhenAssigned | 6.5840/src/shardkv1/shardcfg/shardcfg.go:140-153 | With all shards assigned the number of moves is the larger of total excess over the ceiling and total shortfall under the floor |
| ShardRebalance.ShiftOneLoads | 6.5840/src/shardkv1/shardcfg/shardcfg.go:140-153 | Each pass of the second loop lowers the moves still needed by exactly one, so the loop ends |
| ShardRebalance.PlaceOneLoads | 6.5840/src/shardkv1/shardcfg/shardcfg.go:131-138 | So does each shard the first loop places |
| ShardRebalance.NoFewerMoves | 6.5840/src/shardkv1/shardcfg/shardcfg.go:140-153 | Any even assignment is at least that many moves away from any other |
| ShardRebalance.RebalanceEvens | 6.5840/src/shardkv1/shardcfg/shardcfg.go:122-154 | With at least one group, every shard ends on an existing group and no two groups differ by more than one |
| ShardRebalance.GiversNeverReceive | 6.5840/src/shardkv1/shardcfg/shardcfg.go:140-153 | No group both gives up a shard and takes one |
| ShardRebalance.RebalanceSettles | 6.5840/src/shardkv1/shardcfg/shardcfg.go:122-154 | An assignment is left alone if and only if it is even; rebalancing twice is rebalancing once |
| ShardLoads.ShiftingPays | 6.5840/src/shardkv1/shardcfg/shardcfg.go:140-153 | On load vectors, moving one from a heaviest to a lightest group that differ by two lowers the cost by exactly one |
| ShardLoads.FreeIffBalanced | 6.5840/src/shardkv1/shardcfg/shardcfg.go:260-278 | The cost is zero exactly when all shards are served and the loads differ by at most one |
| ShardConfig.AscendingUnique | 6.5840/src/shardkv1/shardcfg/shardcfg.go:90-98 | The sorted list of group identifiers is unique, so map iteration order cannot matter |
| ShardConfig.Analyze | 6.5840/src/shardkv1/shardcfg/shardcfg.go:80-111 | The smallest identifier among the most and among the least loaded groups, with their loads; the sentinels when there is no group |
| ShardConfig.ShardConfig.Rebalance | 6.5840/src/shardkv1/shardcfg/shardcfg.go:122-154 | The array becomes a function of its old contents and the set of group identifiers: all zero when there is no group, even otherwise |
| ShardConfig.ShardConfig.Join | 6.5840/src/shardkv1/shardcfg/shardcfg.go:156-183 | Succeeds exactly when all groups are new and no server is in two groups, in whatever order the map yields them, and then adds them all; otherwise some fresh groups are in and the next one is already there, which is refused, or shares a server, which is fatal |
| ShardConfig.ShardConfig.Leave | 6.5840/src/shardkv1/shardcfg/shardcfg.go:185-205 | Succeeds exactly when the groups are all there and each named once, and then removes them all; otherwise exactly the groups before the first that is missing are out |
| ShardConfig.ShardConfig.JoinBalance | 6.5840/src/shardkv1/shardcfg/shardcfg.go:207-213 | A successful call leaves an even assignment over the enlarged set of groups; a failing one leaves the shards alone and the groups as Join does |
| ShardConfig.ShardConfig.LeaveBalance | 6.5840/src/shardkv1/shardcfg/shardcfg.go:215-221 | A successful call leaves no shard on a group that left, and an even assignment when groups remain, all zero when none does; a failing one leaves the shards alone and the groups as Leave does |
| KvStore.SetIsCompareAndSet | src/storage/InMemoryKVStore.cpp:37-52 | A set succeeds exactly when it names the present version, 0 for an absent key, then adds one to it; otherwise nothing changes |
| KvStore.InMemoryKVStore.Get | src/storage/InMemoryKVStore.cpp:28-35 | Returns what the key holds, or nothing |
| KvStore.InMemoryKVStore.Set | src/storage/InMemoryKVStore.cpp:37-52 | Compare-and-set on this key; every other key is untouched |
| KvStore.InMemoryKVStore.Erase | src/storage/InMemoryKVStore.cpp:54-63 | Returns what the key held and removes it; every other key is untouched |
| KvModel.PartitionSound | tst/KVTestFramework/porcupine/main.go:54-95 | A history of gets and sets is explained by the store, step by step, if and only if every key's projection is accepted by the single-key model |
| KvModel.ProjectionState | tst/KVTestFramework/porcupine/main.go:72-95 | Each key's projection ends in the value and version the store holds for it |
| KvModel.Partition | tst/KVTestFramework/porcupine/main.go:55-71 | One part per touched key in key order, each the key's operations in history order; all parts pass if and only if the store explains the history |
| Clerk.SetAtMostOnce | src/client/KVStoreClient.cpp:41-60 | While nobody erases the key, one set changes it at most once over all retries and services; OK means exactly once, KeyNotFound means not at all |
| Clerk.MismatchTrustedIff | src/include/client/KVStoreClient.hpp:43-61 | A reported version mismatch means no change, on every network and for every retry threshold, if and only if at most one service is tried |
| Clerk.ForgottenTimeout | src/include/client/KVStoreClient.hpp:43-61 | With two services there is a network on which the call itself made the change it reports as a mismatch |
| Clerk.MaybeMeansResent | src/client/KVStoreClient.cpp:53-57 | Maybe is reported only after at least two rpcs |
| Clerk.MaybeUndecided | src/client/KVStoreClient.cpp:53-57 | After Maybe both outcomes are possible |
| Clerk.EraseAtMostOnce | src/common/Error.cpp:45-49 | One erase call executes at most once over all retries and services; OK means that it did, giving up on all services that it did not |
| Clerk.CallSends | src/common/ExponentialBackoff.cpp:25-33 | One call sends at most the failure threshold, or one, times the services it may try |
| Clerk.ServiceSends | src/common/CircuitBreaker.cpp:32-68 | An open breaker that has not cooled sends nothing, one that is not closed at most one rpc, and none more than the threshold |
| Clerk.AttemptSet | src/common/Repeater.cpp:30-70 | What the list of statuses of the retry loop says about a set |
| ClerkLoops.CallStopsAtFirst | src/include/client/KVStoreClient.hpp:43-61 | Against the bare sequence of turns: the call ends with the codes and effects of the first turn that found a service and ended in neither NotLeader nor a retriable code, or with AllServicesUnavailable after all of them |
| ClerkLoops.CallEnds | src/include/client/KVStoreClient.hpp:43-61 | No call ends in NotLeader or in a retriable code other than AllServicesUnavailable, and in that one if and only if every allowed turn found no service or ended in NotLeader or a retriable code |
| ClerkLoops.AttemptStopsAtFirst | src/common/Repeater.cpp:30-70 | Against the bare sequence of rpcs: the retry loop reports every one up to the first that is stopped, succeeds, fails for good or uses up the threshold |
| ClerkLoops.AttemptExact | src/common/Repeater.cpp:30-70 | Unless stopped, all codes but the last are retriable, and the last is only when the threshold is used up |
| ClerkLoops.BreakerOpensIff | src/common/CircuitBreaker.cpp:32-68 | After any call to a connected service the breaker is open if and only if the last code is retriable, and closed otherwise; a service not connected or not cooled is left alone and makes the client try another |
| ClerkObjects.Repeater.Run | src/common/Repeater.cpp:30-70 | The loop yields the list of statuses, the backoff count and the effects of the retry function |
| ClerkObjects.Repeater.NextDelay | src/common/ExponentialBackoff.cpp:25-33 | Another attempt is allowed while the count is below the threshold less one |
| ClerkObjects.CircuitBreaker.Call | src/common/CircuitBreaker.cpp:32-68 | Statuses, new breaker state and effects in each state of the breaker |
| ClerkObjects.KVStoreClient.Call | src/include/client/KVStoreClient.hpp:43-61 | The loop over services yields the statuses of the last service called and leaves every other breaker alone; it never ends in NotLeader, and in a retriable code only as AllServicesUnavailable, exactly when no turn served |
| ClerkObjects.KVStoreClient.Set | src/client/KVStoreClient.cpp:41-60 | The code the caller is told is the one the clerk theorems are about |
| ClerkObjects.KVStoreClient.EraseKey | src/client/KVStoreClient.cpp:62-74 | The same for erase |
| Lock.LockSafe | src/lock/Lock.cpp:23-50 | In every run of any number of clients, at most one is between the return of acquire and the moment its erase takes effect |
| Lock.EraseOnlyOwn | src/lock/Lock.cpp:35-48 | In every run an erase executes only while the key holds that client's token at version 2 |
| Lock.GivenUpOnlyByErase | src/lock/Lock.cpp:29-50 | In every run a holder keeps the lock through every step of anyone, except exactly its own executed erase, after which the key is absent |
| Lock.OnlyHoldersOverwrite | src/client/KVStoreClient.cpp:90-102 | In every run a client that does not hold the lock changes the key only from absent to its own token at version 1 |
| Lock.HeldFromAcquireOnly | src/lock/Lock.cpp:23-27 | In every run a client comes to hold the lock if and only if its own set was executed on the absent key and answered, or its read found the key at its token and version 1; it then remembers exactly what the key holds |
| Lock.ReleaseUnheld | src/lock/Lock.cpp:29-33 | In every run a client that releases without holding never touches the key, and returns if and only if it reads the key at version 1 |
| LockProgress.NeverLost | src/lock/Lock.cpp:23-50 | From every reachable state there is a continuation in which any given client outside acquire and release comes to hold the lock under any unused token |
| LockProgress.HandOver | src/lock/Lock.cpp:23-50 | From the start, for any two clients and tokens, one acquires, marks and erases the key in its release, and the other acquires after it |
| Lock.StepInv | src/lock/Lock.cpp:23-50 | Every step keeps the lock invariant |

## Left out

- InstallSnapshot across the cluster: the handler, the leader's snapshot path and the pending flag's waiting thread; the cluster theorems are for runs without compaction, which is treated per server in RaftCompaction.
- RaftCompaction.SectionStaysTwin: sections that reach below the cut are excluded: sends from below it, which the code serves with a snapshot; rejections whose hint HintSameIff shows to differ and hints of a term that BacktracksAlikeIff shows to be hidden; and success replies processed while the cut is above the commit index, where the code's commit scan would look up an entry that is gone.
- RaftCompaction.CompactionInvisible: the same sections are excluded from its runs. Snapshots themselves are taken at any index the code accepts.
- Threads, condition variables, timers and wall-clock timeouts: each section that holds the lock is one step, a timeout is a free choice, and waiting is a step not being enabled. The channel's wait loops and the lock's waiting loops, which need not end, are modelled this way rather than as methods.
- The flags that only wake or stop threads (stopCalls, appendNow, shouldStartHeartbeat): a peer thread may send whenever the rest of the state allows it.
- Progress under a fair schedule: NeverStuck and NeverLost show that every state has a continuation that elects, commits and acquires, not that every schedule takes it.
- Effects that arrive after a timeout was reported on the client path, including a command that commits after NotLeader was reported.
- PendingRequests and the matching of replies to callers.
- Config's choice of the next service, connection handling and the breaker's clock: free choices of the environment.
- Retriable codes of the requestVote and appendEntries operations: the Raft model lets any call fail.
- FilePersister, command serialization, gRPC, protobuf, cgo and labrpc plumbing, and backoff and jitter arithmetic.
- Wrap-around of 64-bit indices, terms and versions.
- Clusters of more than 255 servers, beyond the runs that show why.
- Acquiring a lock that the same client already holds.
- The unimplemented course skeletons under 6.5840.
