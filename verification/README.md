# A verified model of raft-kv

This project models the consensus library and the storage layers of raft-kv, a replicated key-value server in
C++, and proves what they are for. It is checked as a whole with `dafny verify dfyconfig.toml`.

**The protocol.** `NodeSpec` is one Raft node as a value with the step function of `raft.cpp`, handler by handler,
every LOG_FATAL included; `RaftNode` is the object whose methods assign the fields and are proved to compute that
function. `Cluster` puts one node per voter around the set of all messages ever sent, which may be lost, repeated
and reordered, and adds applying, snapshots with compaction, and crashes with restart; a cluster starts from nothing
or with the committed configuration entries of a first start. `Protocol` states, apart from any implementation, what
the history of a run keeps: who voted for whom with which log, what each leader's log became, what each follower
confirmed. `Steps` and `Actions` show that the invariant survives each elementary step, the `*Proofs` and
`LeaderSteps` modules that each handler is a sequence of such steps, and `Safety` draws the conclusions for whole
runs: Election Safety, Log Matching, Leader Append-Only, Leader Completeness and State Machine Safety (Figure 3 of
"In Search of an Understandable Consensus Algorithm", extended version), durability of committed entries, soundness
of match indices, and that no fatal check is reached.

**What needs no other node.** `LocalInv` (in `Local.dfy`) is the part of the invariant that a node keeps by itself,
and `EveryRun` carries it through every run, also one in which a pre-vote response is miscounted. `Schedules` builds
runs step by step; with it `PreVote` and `Reads` show that the two conditions below are exact.

**One step at a time.** `Rounds` says exactly what one exchange between a leader and a follower achieves - appends,
heartbeats, snapshots, refusals - `Elections` when votes are granted, campaigns started, won and lost, and leadership
handed over, `Answers` what becomes of a read, and `Proposals` what becomes of a proposal; `Clients` follows a proposal
through a whole run to the applications.

**What applications receive.** `Deliveries` says when a stream of entries and snapshots is in order, `Applying`
proves it of every node in every run and that no two nodes are given different entries for one index, and `Ready`
proves it of the server's loop over any number of steps and rounds.

**The layers below.** `TwoLevel`, `Storage` and `RaftLog` show that the unstable tail over the memory storage reads
as one simple log; `Wire` is an entry in MessagePack; `Progress` is the flow control with its ring buffer, with the convergence of probing; `ReadOnly`
the queue of read requests; `Wal` and `WalReplay` the write-ahead log from bytes to recovery. **Above them,**
`KvStore` is the state machine with its two backends and `Glob` the matcher behind KEYS.

## What the proofs found

- Pre-vote responses are counted as votes (`raft-kv/raft/raft.cpp:872`), against the comment at lines 854-856. Two
  nodes can lead one term, and with the server's own configuration (`raft-kv/server/raft_node.cpp:67`) they can
  whenever there are two voters or more; a single node with the phase on is enough among three.
  `PreVote.ElectionSafeIff` is the exact condition on the settings of all nodes. The other theorems of `Safety` and
  `Applying` hold for every run in which no response is miscounted (`AllCounted`), and `EveryRun.PreVoteOffCounted`
  shows that this is every run once the phase is off.
- Replies to heartbeats carry no context (the source writes it into the request), so ReadIndex completes only with a
  single voter or on a lease: `Reads.ReadsCompleteIff`. Nothing unsafe follows from it.
- A configuration change that cannot be decoded is skipped together with the cursor; at the end of a page this
  stops the process at the next page: `ReadyLoop.NextPageAcceptedIff`.
- Replay of the write-ahead log can bring back an entry of an earlier term above the snapshot, when a later save had
  cut the log off at or below it: `WalReplay.StaleEntryReturns`; `WalReplay.RecoveryIff` gives the exact condition.
  The restart event of `Cluster` assumes that it is met.
- Records longer than 0xFFFFFF bytes are written in full behind a clamped length and lost on reading:
  `WalFile.SurvivesIff`.
- Loading an empty snapshot into a RocksDB store deletes nothing: `KvStore.LoadExactIff`. This never hurts a restart
  (`KvStore.RestartRecovers`), but a follower that is sent such a snapshot keeps keys that were deleted
  (`KvStore.LaggingFollowerKeeps`), and the two backends part (`KvStore.BackendsAgree`).
- The must_sync flag of a Ready compares the new hard state with itself; the write-ahead log does not use the flag
  and never syncs too little: `Durability.ReadyFlagIff`, `Durability.WalNeverLess`.
- Compaction is never refused only because the two constants of the server are equal:
  `ReadyLoop.CompactionAccepted`.

## Model

| member | source | states |
|---|---|---|
| `Safety.ElectionSafety` | raft-kv/raft/raft.cpp:265-284 | Election Safety (Raft section 5.2): over a whole run, two nodes that lead the same term - at the same or at different times - are the same node; for every run in which no granted pre-vote response is counted as a vote |
| `EveryRun.PreVoteOffCounted` | raft-kv/raft/raft.cpp:872-896 | with the pre-vote phase off on all nodes no run ever miscounts a pre-vote response, so every theorem over counted runs holds for all runs |
| `PreVote.ElectionSafeIff` | raft-kv/raft/raft.cpp:872-889 | for every setting of the pre-vote flag on each node: at most one leader per term in every reachable state if and only if no node runs the pre-vote phase, or there is one voter, or there are two and only one of them runs it; the comment at lines 854-856, by which only the matching kind of response counts, is not what the code does |
| `PreVote.TwoLeaders` | raft-kv/raft/raft.cpp:872-889 | whenever one node runs the phase and a second one does too, or there are three voters, and from any committed start configuration: a run that ends with these two leading one term |
| `Schedules.CountedAlike` | raft-kv/raft/raft.cpp:872-896 | in every state of a candidate a granted pre-vote response does exactly what a vote of its term does, and the node leads exactly when both kinds together make a quorum |
| `Safety.LeaderAppendOnly` | raft-kv/raft/raft.cpp:1509-1534 | Leader Append-Only (section 5.3): between any two times of a run at which a node leads one term, its log only grew and no entry of it changed |
| `Safety.LogMatching` | raft-kv/raft/raft_log.cpp:30-96 | Log Matching (section 5.3): equal terms at an index imply equal logs up to it, for any two nodes and any two times |
| `Safety.LeaderCompleteness` | raft-kv/raft/raft.cpp:477-519 | Leader Completeness (section 5.4): what a node has committed is in the log of every leader of a later term, whether that one led before or after the commit was learned of, and of the leaders of the same term from then on |
| `Safety.StateMachineSafety` | raft-kv/raft/raft.cpp:1460-1471 | State Machine Safety (section 5.4.3): two nodes that have committed an index, now or earlier, hold the same entry there |
| `Safety.CommittedStays` | raft-kv/raft/raft_log.cpp:66-78 | no later step - truncation, restored snapshot, compaction, restart with an older commit index - takes a committed entry out of the log of a node or changes it |
| `Safety.NeverFatal` | raft-kv/raft/raft_log.cpp:43-45 | in no run does any node reach a stop on the message path: conflict or append below commit, commit past the end, a full window, a send in an unhandled state, an empty proposal, an invalid role change |
| `Safety.MatchIsSound` | raft-kv/raft/raft.cpp:680-705 | in every reachable state a follower in the leader's term holds the leader's log up to its match index |
| `Safety.MatchNeverDecreases` | raft-kv/raft/progress.cpp:149-160 | while a node leads a term - which it does without interruption - no match index ever drops |
| `Safety.AcknowledgedStays` | raft-kv/raft/raft.cpp:1101-1145 | as long as a follower is in the term in which it acknowledged an index, it holds the log up to it that any leader of the term, seen at any time, has - whatever became of that leader, and however appends of the term are repeated, delayed or reordered |
| `Safety.HeartbeatCommitIsHeld` | raft-kv/raft/raft.cpp:1407-1423 | the commit index of a heartbeat never passes what its addressee, still in that term, shares with the leader |
| `Safety.WindowInOrder` | raft-kv/raft/raft.cpp:1334-1405 | in every run the window of a replicating follower rises strictly between match and next, and next stays within the log |
| `EveryRun.CandidateBelowQuorum` | raft-kv/raft/raft.cpp:872-896 | in every run, counted or not: a node that is still a candidate has counted fewer than a quorum of votes, so the comparison by equality never misses the winning vote; candidates and leaders have voted for themselves |
| `Reads.ReadsCompleteIff` | raft-kv/raft/raft.cpp:1147-1154 | a read request is answered - to the application or to the node that forwarded it - in some run if and only if some node answers on a lease or there is a single voter; because the reply to a heartbeat carries no context, ReadIndex completes in no other cluster, whatever its pre-vote settings |
| `EveryRun.ReadsInOrder` | raft-kv/raft/readonly.cpp:58-69 | in every reachable state of every run the queue of read requests and its map agree without duplicates, read indices do not decrease along the queue and lie within the commit index, and no context can make advance stop |
| `EveryRun.OneVotePerTerm` | raft-kv/raft/raft.cpp:477-519 | in every run a node votes for at most one candidate in a term, across repetitions, losses and restarts |
| `LocalInv.StepFits` | raft-kv/raft/raft.cpp:288-549 | one call of step keeps the checks that need no other node - shape, own vote, votes counted, reads in order, what it may send - in every run, also one in which a response is miscounted |
| `Applying.HandedInOrder` | raft-kv/server/raft_node.cpp:132-168 | over any run of steps, applying, compactions and restarts the application of a node receives each entry right after the one before, except that a snapshot from the leader jumps ahead and a restart falls back to the snapshot of the node; and the application has come exactly as far as the applied cursor |
| `Applying.HandedOnce` | raft-kv/server/raft_node.cpp:132-168 | without such jumps it has received exactly the entries 1 to applied, each once, in order |
| `Applying.HandedAgree` | raft-kv/server/raft_node.cpp:293-355 | no two applications, nor one before and after a crash, are ever given different entries for one index, also after compaction on either side |
| `Applying.SnapshotAgrees` | raft-kv/server/raft_node.cpp:197-229 | a snapshot loaded by one node has the term of the entry that any node was given at its index |
| `Applying.CommittedTerms` | raft-kv/raft/raft_log.cpp:220-242 | committed indices have one term in the whole cluster, also where a log starts at a snapshot |
| `Applying.StepReestablishes` | raft-kv/server/raft_node.cpp:132-168 | every step of every run leaves one of the two states from which the server pulls its next Ready: committed entries waiting above the cursor, or a restored snapshot beyond it |
| `Deliveries.NoJumps` | raft-kv/server/raft_node.cpp:293-355 | a stream that is in order and without snapshots is the entries right after its start, each once |
| `Cluster.StartBacked` | raft-kv/raft/node.cpp:26-72 | every start - from nothing, or with the committed configuration entries of term 1 - meets the cluster invariant |
| `Cluster.NextBacked` | raft-kv/server/raft_node.cpp:132-168 | every event of a cluster - delivery, local call, applying, compaction, restart - keeps the invariant that ties each node and each message to the history of the run |
| `Cluster.RestartKept` | raft-kv/server/raft_node.cpp:246-287 | a crash that keeps term, vote, entries and snapshot, and any commit index from the snapshot on, keeps the invariant |
| `Cluster.CompactGood` | raft-kv/raft/storage.cpp:89-117 | compacting at or below the applied index leaves a node truthful about everything still visible |
| `StepProofs.StepKept` | raft-kv/raft/raft.cpp:288-549 | one call of step with any true or local message keeps the invariant, adds only to the history, and is never fatal |
| `Protocol.LeaderCompleteness` | raft-kv/raft/raft_log.h:72-75 | in any history that meets the invariant, a prefix confirmed by a majority up to an entry of the leader's own term is in the log of every later leader |
| `Protocol.UpToDateCarries` | raft-kv/raft/raft_log.h:72-75 | the comparison of last entries carries a prefix from the voter's log to the candidate's |
| `Protocol.AckHeld` | raft-kv/raft/raft.cpp:1118-1125 | a node still in the term in which it confirmed a prefix of the leader's log holds that prefix |
| `Actions.AdoptInv` | raft-kv/raft/raft_log.cpp:66-78 | cutting a follower's log to its leader's keeps the invariant and loses nothing committed |
| `Actions.ElectInv` | raft-kv/raft/raft.cpp:168-207 | electing a candidate with a majority of votes keeps the invariant |
| `Actions.CastInv` | raft-kv/raft/raft.cpp:477-519 | one vote per term for an open, up-to-date campaign keeps the invariant |
| `LeaderProofs.CommitIndexChosen` | raft-kv/raft/raft.cpp:1460-1471 | an index that maybe_commit accepts is held by a majority and ends in an entry of the leader's own term: it is committed |
| `FollowerProofs.AppendIsAdopt` | raft-kv/raft/raft_log.cpp:30-96 | accepting a piece of the leader's log leaves a log that has it all alone, and cuts every other log to exactly that piece, without touching what is committed |
| `FollowerProofs.ConflictIs` | raft-kv/raft/raft_log.cpp:80-96 | the conflict search finds the first index of the offered entries at which follower and leader differ, or 0 if there is none |
| `FollowerProofs.BeatShared` | raft-kv/raft/raft.cpp:1147-1154 | a heartbeat's commit index lies within what the follower shares with the leader |
| `FollowerProofs.RestoreShows` | raft-kv/raft/raft_log.cpp:125-131 | restoring a snapshot is adopting the leader's log up to it |
| `VoterProofs.WinnerIsNew` | raft-kv/raft/raft.cpp:876-889 | a candidate that has counted a quorum of votes is the first winner of its term |
| `MatchProofs.LeaderAhead` | raft-kv/raft/raft.cpp:552-850 | no branch of step_leader that leaves the node leading lowers a match index or changes the term |
| `MatchProofs.DispatchNextTerm` | raft-kv/raft/raft.cpp:210-262 | a follower or pre-candidate that ends a step as leader leads the next term, never its current one |
| `MatchProofs.SendAllDrains` | raft-kv/raft/raft.cpp:711-717 | the send loop ends, and only when nothing more may be sent to the follower |
| `NodeSpec.SendMakesProgress` | raft-kv/raft/raft.cpp:1334-1405 | every append the loop sends moves next towards the end of the log or pauses the follower, which is why the loop ends |
| `ConfigProofs.StepKeepsConfig` | raft-kv/raft/raft.cpp:288-549 | no handler changes the configuration, and none touches the start of the log, its snapshot or the applied cursor, unless a snapshot from the leader replaces the log |
| `QuorumIndex.QuorumMatchIsGreatest` | raft-kv/raft/raft.cpp:1460-1471 | for every non-empty list of match values the picked one is the greatest index that a quorum has reached |
| `QuorumIndex.SortKeeps` | raft-kv/raft/raft.cpp:1467 | sorting orders the buffer and keeps its values and their counts |
| `Quorum.QuorumsIntersect` | raft-kv/raft/raft.h:74-76 | any two sets of quorum size share a voter |
| `LeaderProofs.ReachedCount` | raft-kv/raft/raft.cpp:1460-1466 | counting match values in the buffer is counting voters |
| `Proposals.Proposed` | raft-kv/raft/raft.cpp:565-610 | a leader that accepts a proposal ends with its old log followed by one entry per proposed one, with the type and data it came with - except that a configuration change is an empty entry exactly when one is pending or an earlier one of the batch was let through - and it accepts exactly when no transfer is under way and the uncommitted payload has room |
| `Proposals.ProposalSpreads` | raft-kv/raft/raft.cpp:605-609 | after an accepted proposal the leader has it itself, commits by the quorum rule, and every follower that may be sent something is told |
| `Proposals.Released` | raft-kv/raft/raft.cpp:1633-1650 | what was applied no longer counts as uncommitted, and the counter stops at zero |
| `Clients.ServedAsProposed` | raft-kv/server/raft_node.cpp:293-355 | over any run, what any application is ever given under the index and term at which a leader took a proposal is what was proposed |
| `Rounds.SentIs` | raft-kv/raft/raft.cpp:1334-1405 | sending to a follower adds exactly one message whenever it may: an append from right before its next index with as many entries as fit and the commit index of the leader, or the stored snapshot when those entries are gone |
| `Rounds.SentMarks` | raft-kv/raft/raft.cpp:1384-1403 | what sending an append changes in the record of the follower: next and window while replicating, a pause while probing |
| `Rounds.AppendRound` | raft-kv/raft/raft.cpp:1101-1145 | what a follower makes of an append: it reports its commit index when it is past it, refuses without the entry before it, and otherwise ends with all offered entries and a commit index of exactly the larger of its own and what the leader has committed among them |
| `Rounds.BroadcastTells` | raft-kv/raft/raft.cpp:1435-1442 | a broadcast tells every follower that may be sent something |
| `Rounds.AcceptTaken` | raft-kv/raft/raft.cpp:679-727 | what a leader makes of an acceptance: exact match index, nobody else moved, the commit rule, all sent that may be sent, and the word to campaign for a follower that leadership is handed to |
| `Rounds.AcceptTells` | raft-kv/raft/raft.cpp:706-717 | when the commit index moves, every follower that may be sent something hears of it, and otherwise at least the one that was paused |
| `Rounds.CommitIs` | raft-kv/raft/raft.cpp:1460-1471 | the commit index becomes the greatest index that a quorum of voters has reached, if that is news and of the own term, and stays otherwise |
| `Rounds.RefusalTaken` | raft-kv/raft/raft.cpp:669-678 | a refusal that is news brings next down to the refused index or right behind the end of the follower, and the follower is sent something at once; any other changes nothing |
| `Rounds.HeartbeatRound` | raft-kv/raft/raft.cpp:1147-1154 | after a heartbeat the commit index of the follower is exactly the larger of its own and the smaller of its match and the commit index of the leader |
| `Rounds.BeatsReach` | raft-kv/raft/raft.cpp:1407-1458 | every other voter is sent a heartbeat with the context, and nothing else changes |
| `Rounds.SnapshotSent` | raft-kv/raft/raft.cpp:1354-1379 | a follower that is sent a snapshot waits for exactly that one |
| `Rounds.SnapshotRound` | raft-kv/raft/raft.cpp:1156-1230 | what a follower makes of a snapshot: keeps its log, commits up to it, or starts anew from it, with all progress records |
| `Rounds.SnapshotReported` | raft-kv/raft/raft.cpp:767-790 | after the report on a snapshot the follower is probed right above the snapshot if it arrived, above the match if not |
| `Rounds.UnreachableProbes` | raft-kv/raft/raft.cpp:791-801 | an unreachable follower is probed from right above its match |
| `Answers.ReadTaken` | raft-kv/raft/raft.cpp:611-663 | what a leader does with a read: answers alone, ignores it before it committed in its term, answers on a lease, or queues it with its commit index and asks every other voter to confirm |
| `Answers.ReadsReleased` | raft-kv/raft/raft.cpp:738-764 | a read and all before it are answered, in order and with the index recorded for each, exactly when a quorum with the leader has confirmed it |
| `Answers.AnswersAre` | raft-kv/raft/readonly.cpp:27-56 | each released read is answered once, to the own application or to the node that forwarded it, with its index and its own context |
| `Answers.ForwardedRead` | raft-kv/raft/raft.cpp:1073-1095 | a read forwarded to a leader with a lease comes back as a read state with the context of the client and the commit index of the leader |
| `Answers.BeatRule` | raft-kv/raft/raft.cpp:555-558 | a heartbeat tick asks every other voter to confirm the newest waiting read |
| `Answers.ReplyTaken` | raft-kv/raft/raft.cpp:729-740 | a reply to a heartbeat marks the follower active, frees it, and sends it something if it is behind |
| `Elections.VoteRule` | raft-kv/raft/raft.cpp:455-541 | a vote request of the own or a later term is answered exactly once unless a lease protects the leader, and granted exactly when the node is free and the candidate not behind; only then the vote is cast |
| `Elections.PreWinRule` | raft-kv/raft/raft.cpp:876-889 | a pre-candidate with a quorum starts the election of the next term |
| `Elections.PreVoteRule` | raft-kv/raft/raft.cpp:455-541 | a pre-vote request is answered by the same rule and changes nothing else |
| `Elections.StaleRule` | raft-kv/raft/raft.cpp:345-416 | a message of an earlier term changes nothing; a stale leader and a stale pre-candidate are told the term |
| `Elections.HupRule` | raft-kv/raft/raft.cpp:420-454 | an election timeout starts a campaign exactly when the node does not lead and has no committed configuration change to apply; every other voter is asked |
| `Elections.LossRule` | raft-kv/raft/raft.cpp:876-896 | a candidate becomes a follower again exactly when a quorum has denied it |
| `Elections.FirstAnswerCounts` | raft-kv/raft/raft.cpp:265-284 | only the first answer of a voter counts |
| `Elections.LeadRule` | raft-kv/raft/raft.cpp:168-207 | what a new leader starts from: one empty entry of its term, every follower probed from there, its whole log taken as pending |
| `Elections.QuorumCheckRule` | raft-kv/raft/raft.cpp:559-564 | a leader steps down exactly when fewer than a quorum of the voters, itself included, is active |
| `Elections.FollowRule` | raft-kv/raft/raft.cpp:1031-1048 | a message from the leader of the own or a later term makes a node that does not lead its follower |
| `Elections.ForwardRule` | raft-kv/raft/raft.cpp:1020-1080 | a proposal or read at a follower goes to its leader as it came, or nowhere |
| `Elections.TransferForwarded` | raft-kv/raft/raft.cpp:1049-1057 | a follower passes a request for a transfer on to its leader |
| `Elections.CandidateIgnores` | raft-kv/raft/raft.cpp:853-905 | without a leader nobody takes proposals, reads or transfers |
| `Elections.TransferRule` | raft-kv/raft/raft.cpp:802-848 | a transfer of leadership is remembered, cancelled or ignored, and the follower is told to campaign at once exactly when it has the whole log |
| `Elections.TransferHeeded` | raft-kv/raft/raft.cpp:1058-1072 | the follower told to campaign asks every voter at once, and none can ignore it for the sake of the old leader: each grants its vote exactly when the log of the follower is not behind |
| `Safety.LeadIsLeader` | raft-kv/raft/raft.cpp:127-138 | whom a node takes for its leader is the one leader of its term, whenever that one is seen leading |
| `Wire.SizeIs` | raft-kv/raft/proto.cpp:100-155 | serialize_size is the number of bytes that an entry takes in MessagePack |
| `Wire.EntryBack` | raft-kv/raft/proto.h:83 | an entry is read back as it was from the front of any stream it starts |
| `EntrySizes.LimitIsLongest` | raft-kv/raft/util.cpp:7-20 | the front kept is the longest within the limit, at least one entry |
| `RaftObject.Raft.constructor` | raft-kv/raft/raft.cpp:23-124 | an empty follower that takes over the stored log, hard state and applied index, or stops on a commit index outside the log |
| `RaftObject.Raft.LoadState` | raft-kv/raft/raft.cpp:1259-1270 | term, vote and commit index come from the hard state, or the process stops |
| `RaftObject.Raft.Bootstrap` | raft-kv/raft/node.cpp:41-66 | a first start leads to exactly the initial node of the cluster: term 1, configuration entries appended and committed |
| `RaftObject.RestartIsLoad` | raft-kv/raft/raft.cpp:23-124 | the restart event of the cluster is this constructor on what the node had saved |
| `RaftObject.Raft.SendMsg` | raft-kv/raft/raft.cpp:908-941 | stamps sender and term, and stops on a term where none belongs or none where one belongs, as the step function says |
| `RaftObject.Raft.ForgetTerm` | raft-kv/raft/raft.cpp:1473-1503 | the part of reset that a term change always clears |
| `RaftObject.Raft.ResetTo` | raft-kv/raft/raft.cpp:1473-1503 | term, vote, votes, progress, reads and counters are reset exactly as the step function says |
| `RaftObject.Raft.BecomeFollowerOf` | raft-kv/raft/raft.cpp:127-138 | the resulting state is the step function's |
| `RaftObject.Raft.BecomeCandidateNow` | raft-kv/raft/raft.cpp:141-150 | the resulting state is the step function's |
| `RaftObject.Raft.BecomePreCandidateNow` | raft-kv/raft/raft.cpp:153-165 | the resulting state is the step function's |
| `RaftObject.Raft.BecomeLeaderNow` | raft-kv/raft/raft.cpp:168-207 | the resulting state is the step function's; the stop on a refused empty entry is unreachable |
| `RaftObject.Raft.SumPayload` | raft-kv/raft/raft.cpp:1617-1631 | the loop adds up the payload sizes in 32 bits |
| `RaftObject.Raft.IncreaseUncommitted` | raft-kv/raft/raft.cpp:1617-1631 | accepts and counts entries unless a non-empty tail would pass the limit |
| `RaftObject.Raft.ReduceUncommittedBy` | raft-kv/raft/raft.cpp:1633-1650 | the counter never goes below zero |
| `RaftObject.Raft.QuorumIndexOf` | raft-kv/raft/raft.cpp:1460-1469 | the loop fills the match buffer and reads the quorum position of the sorted values |
| `RaftObject.Raft.TryCommit` | raft-kv/raft/raft.cpp:1460-1471 | commits exactly when the quorum index is new and of the current term |
| `RaftObject.Raft.StampAll` | raft-kv/raft/raft.cpp:1509-1520 | the loop stamps every entry with the term and consecutive indices |
| `RaftObject.Raft.AppendEntries` | raft-kv/raft/raft.cpp:1509-1534 | the resulting state is the step function's |
| `RaftObject.Raft.PollVote` | raft-kv/raft/raft.cpp:265-284 | records a vote only once and returns the number of granted ones |
| `RaftObject.CountGranted` | raft-kv/raft/raft.cpp:278-283 | the counting loop of poll computes the size of the set of granted votes |
| `RaftObject.Raft.AskForVotes` | raft-kv/raft/raft.cpp:244-262 | the loop sends one request to every other voter |
| `RaftObject.Raft.RunElection` | raft-kv/raft/raft.cpp:225-262 | the resulting state is the step function's |
| `RaftObject.Raft.RunCampaign` | raft-kv/raft/raft.cpp:210-262 | the resulting state is the step function's |
| `RaftObject.Raft.Hup` | raft-kv/raft/raft.cpp:420-454 | the resulting state is the step function's |
| `RaftObject.Raft.PendingConfChange` | raft-kv/raft/raft.cpp:13-17 | the loop finds out whether a configuration change waits to be applied |
| `RaftObject.Raft.HandleVote` | raft-kv/raft/raft.cpp:455-541 | the resulting state is the step function's |
| `RaftObject.Raft.SendOneAppend` | raft-kv/raft/raft.cpp:1334-1405 | the resulting state is the step function's; the stops on a full window and on an unhandled state are unreachable |
| `RaftObject.Raft.BroadcastAppend` | raft-kv/raft/raft.cpp:1435-1442 | the loop sends an append to every other voter |
| `RaftObject.Raft.SendRemaining` | raft-kv/raft/raft.cpp:711-717 | while (maybe_send_append(...)) computes the step function's recursion |
| `RaftObject.Raft.SendHeartbeats` | raft-kv/raft/raft.cpp:1450-1458 | the loop sends a heartbeat with the smaller of match and commit to every other voter |
| `RaftObject.Raft.CheckQuorumActive` | raft-kv/raft/raft.cpp:1591-1604 | the loop counts the active voters and compares them with the quorum |
| `RaftObject.Raft.FilterConfChanges` | raft-kv/raft/raft.cpp:581-603 | the loop computes the filter that Proposals.Proposed describes: every configuration change that comes too early becomes an empty entry, nothing else changes |
| `RaftObject.Raft.HandleProposal` | raft-kv/raft/raft.cpp:565-610 | the resulting state is the step function's |
| `RaftObject.Raft.Answer` | raft-kv/raft/raft.cpp:628-661 | a read is answered locally or by a message to the node that forwarded it |
| `RaftObject.Raft.HandleReadIndex` | raft-kv/raft/raft.cpp:611-663 | the resulting state is the step function's |
| `RaftObject.Raft.AnswerAll` | raft-kv/raft/raft.cpp:745-764 | the loop answers the released reads in order |
| `RaftObject.Raft.HandleAppResp` | raft-kv/raft/raft.cpp:666-727 | the resulting state is the step function's |
| `RaftObject.Raft.AcceptedNext` | raft-kv/raft/raft.cpp:706-710 | the resulting state is the step function's |
| `RaftObject.Raft.HandleHeartbeatResp` | raft-kv/raft/raft.cpp:729-766 | the resulting state is the step function's |
| `RaftObject.Raft.ReadAcks` | raft-kv/raft/raft.cpp:738-764 | the resulting state is the step function's |
| `RaftObject.Raft.HandleSnapStatus` | raft-kv/raft/raft.cpp:767-790 | the resulting state is the step function's |
| `RaftObject.Raft.HandleUnreachable` | raft-kv/raft/raft.cpp:791-801 | the resulting state is the step function's |
| `RaftObject.Raft.HandleTransfer` | raft-kv/raft/raft.cpp:802-848 | the resulting state is the step function's |
| `RaftObject.Raft.HandleAsLeader` | raft-kv/raft/raft.cpp:552-850 | the resulting state is the step function's |
| `RaftObject.Raft.AppendFromLeader` | raft-kv/raft/raft.cpp:1101-1145 | the resulting state is the step function's |
| `RaftObject.Raft.HeartbeatFromLeader` | raft-kv/raft/raft.cpp:1147-1154 | the resulting state is the step function's |
| `RaftObject.Raft.RestoreFrom` | raft-kv/raft/raft.cpp:1180-1230 | an old snapshot changes nothing, a known one only commits, any other replaces the log and the progress |
| `RaftObject.Raft.SnapshotFromLeader` | raft-kv/raft/raft.cpp:1156-1178 | the resulting state is the step function's |
| `RaftObject.Raft.CountVotes` | raft-kv/raft/raft.cpp:876-896 | win, lose or wait, as the step function says |
| `RaftObject.Raft.HandleAsCandidate` | raft-kv/raft/raft.cpp:853-905 | the resulting state is the step function's |
| `RaftObject.Raft.ForwardToLeader` | raft-kv/raft/raft.cpp:1020-1080 | the resulting state is the step function's |
| `RaftObject.Raft.HandleAsFollower` | raft-kv/raft/raft.cpp:1018-1099 | the resulting state is the step function's |
| `RaftObject.Raft.Handle` | raft-kv/raft/raft.cpp:419-548 | the resulting state is the step function's |
| `RaftObject.Raft.StepMsg` | raft-kv/raft/raft.cpp:288-549 | the object after step is exactly the step function's state, for which the cluster theorems are proved |
| `LeaderSteps.ProposeLeading` | raft-kv/raft/raft.cpp:565-610 | a proposal keeps the leader's invariant |
| `LeaderSteps.AppRespLeading` | raft-kv/raft/raft.cpp:666-727 | a reply to an append keeps the leader's invariant, whatever its age |
| `LeaderSteps.ReadIndexLeading` | raft-kv/raft/raft.cpp:611-663 | a read request keeps the leader's invariant |
| `VoterProofs.ElectKept` | raft-kv/raft/raft.cpp:225-262 | a campaign keeps the invariant |
| `VoterProofs.VoteKept` | raft-kv/raft/raft.cpp:477-541 | answering a vote request keeps the invariant |
| `VoterProofs.TallyKept` | raft-kv/raft/raft.cpp:876-896 | acting on counted votes keeps the invariant |
| `FollowerProofs.AppendKept` | raft-kv/raft/raft.cpp:1101-1145 | an append from the leader keeps the invariant, and the reply is backed by what the follower then holds |
| `FollowerProofs.HeartbeatKept` | raft-kv/raft/raft.cpp:1147-1154 | a heartbeat keeps the invariant |
| `FollowerProofs.SnapshotKept` | raft-kv/raft/raft.cpp:1156-1230 | a snapshot keeps the invariant |
| `TwoLevel.LastIs` | raft-kv/raft/raft_log.cpp:258-270 | the last index computed from the two levels is that of the one log, and its entries are numbered consecutively |
| `TwoLevel.AppendView` | raft-kv/raft/unstable.cpp:91-115 | truncate_and_append on the unstable level is append on the one log, stop included |
| `TwoLevel.SaveView` | raft-kv/raft/storage.cpp:119-157 | writing the unstable tail to storage leaves the one log as it was |
| `TwoLevel.StableView` | raft-kv/raft/unstable.cpp:61-77 | dropping the saved tail leaves the one log as it was |
| `TwoLevel.CompactView` | raft-kv/raft/storage.cpp:89-117 | compacting forgets exactly the entries up to the index and keeps its term, even before the saved tail was dropped |
| `TwoLevel.SnapshotView` | raft-kv/raft/storage.cpp:188-206 | moving a pending snapshot to storage leaves the one log as it was |
| `RaftLog.RaftLog.constructor` | raft-kv/raft/raft_log.cpp:7-24 | the log starts at what storage holds, everything up to the dummy committed and applied |
| `RaftLog.RaftLog.FirstIndex` | raft-kv/raft/raft_log.cpp:244-256 | the first index of the one log |
| `RaftLog.RaftLog.LastIndex` | raft-kv/raft/raft_log.cpp:258-270 | the last index of the one log |
| `RaftLog.RaftLog.Term` | raft-kv/raft/raft_log.cpp:220-242 | the term of the one log, without an error at any index, and 0 outside it |
| `RaftLog.RaftLog.MatchTerm` | raft-kv/raft/raft_log.cpp:204-211 | agrees with the one log |
| `RaftLog.RaftLog.LastTerm` | raft-kv/raft/raft_log.cpp:213-218 | agrees with the one log |
| `RaftLog.RaftLog.FindConflict` | raft-kv/raft/raft_log.cpp:80-96 | the loop finds the first entry that is not in the one log |
| `RaftLog.RaftLog.CommitTo` | raft-kv/raft/raft_log.cpp:190-202 | moves the commit index or stops past the end, as on the one log |
| `RaftLog.RaftLog.Append` | raft-kv/raft/raft_log.cpp:66-78 | appends to the one log or stops below the commit index or on a gap |
| `RaftLog.RaftLog.MaybeAppend` | raft-kv/raft/raft_log.cpp:30-64 | rejects, accepts or stops, as on the one log |
| `RaftLog.RaftLog.MaybeCommit` | raft-kv/raft/raft_log.cpp:113-123 | commits an index only when its entry has the given term |
| `RaftLog.RaftLog.Restore` | raft-kv/raft/raft_log.cpp:125-131 | the one log becomes the snapshot |
| `RaftLog.RaftLog.AppliedTo` | raft-kv/raft/raft_log.cpp:147-155 | moves the applied cursor only |
| `RaftLog.RaftLog.GetSnapshot` | raft-kv/raft/raft_log.cpp:133-145 | the pending snapshot before the stored one |
| `RaftLog.RaftLog.Slice` | raft-kv/raft/raft_log.cpp:157-188 | a slice across both levels is the size-limited slice of the one log |
| `RaftLog.RaftLog.NextEntries` | raft-kv/raft/raft_log.cpp:98-106 | the next page of committed entries, without a stop |
| `RaftLog.RaftLog.HasNextEntries` | raft-kv/raft/raft_log.cpp:108-111 | whether that page is non-empty |
| `RaftLog.RaftLog.IsUpToDate` | raft-kv/raft/raft_log.h:72-75 | the voting rule on the one log |
| `RaftLog.RaftLog.Entries` | raft-kv/raft/raft_log.h:97-102 | the entries of the one log from an index on, size-limited |
| `Storage.MemoryStorage.constructor` | raft-kv/raft/storage.h:61-67 | only the dummy entry |
| `Storage.MemoryStorage.FirstIndex` | raft-kv/raft/storage.cpp:213-216 | one past the dummy |
| `Storage.MemoryStorage.LastIndex` | raft-kv/raft/storage.cpp:208-211 | the last stored index |
| `Storage.MemoryStorage.Term` | raft-kv/raft/storage.cpp:57-71 | the stored term, or which error |
| `Storage.MemoryStorage.Entries` | raft-kv/raft/storage.cpp:28-55 | the loop copies the requested entries, size-limited, or says which error |
| `Storage.MemoryStorage.Compact` | raft-kv/raft/storage.cpp:89-117 | the entry at the index becomes the dummy, or which error |
| `Storage.MemoryStorage.Append` | raft-kv/raft/storage.cpp:119-157 | drops compacted entries, overwrites a conflicting tail, stops on a gap |
| `Storage.MemoryStorage.CreateSnapshot` | raft-kv/raft/storage.cpp:159-186 | records index and term of a snapshot, or which error |
| `Storage.MemoryStorage.ApplySnapshot` | raft-kv/raft/storage.cpp:188-206 | replaces the entries by the dummy of a newer snapshot |
| `Unstable.Unstable.MaybeFirstIndex` | raft-kv/raft/unstable.cpp:6-14 | defined by the pending snapshot |
| `Unstable.Unstable.MaybeLastIndex` | raft-kv/raft/unstable.cpp:16-29 | of the tail, else of the pending snapshot |
| `Unstable.Unstable.MaybeTerm` | raft-kv/raft/unstable.cpp:31-59 | of a tail entry or of the pending snapshot, nothing else |
| `Unstable.Unstable.StableTo` | raft-kv/raft/unstable.cpp:61-77 | drops a saved front when the term matches |
| `Unstable.Unstable.StableSnapTo` | raft-kv/raft/unstable.cpp:79-83 | drops the saved snapshot |
| `Unstable.Unstable.Restore` | raft-kv/raft/unstable.cpp:85-89 | only the snapshot remains |
| `Unstable.Unstable.TruncateAndAppend` | raft-kv/raft/unstable.cpp:91-115 | appends, replaces or truncates, and stops on a gap |
| `Unstable.Unstable.Slice` | raft-kv/raft/unstable.cpp:117-125 | the requested part, or a stop out of bounds |
| `EntrySizes.EntryLimitSize` | raft-kv/raft/util.cpp:7-20 | the loop computes the longest front within the limit, at least one entry |
| `EntrySizes.FitIsLongest` | raft-kv/raft/util.cpp:7-20 | the front kept is within the limit or a single entry, and no longer front is within it |
| `EntrySizes.LimitPart` | raft-kv/raft/raft_log.cpp:157-188 | a part that does not fit is limited like the whole, so stopping at the storage boundary is right |
| `ReadyLoop.Server.PullReady` | raft-kv/server/raft_node.cpp:132-168 | the loop ends with everything committed applied; the application received exactly the committed entries above its cursor, once and in order, or the restored snapshot; no stop is reached |
| `ReadyLoop.Server.TakeStep` | raft-kv/raft/raft_log.cpp:30-131 | whatever a step does to the log - adopt, grow, commit, install a snapshot - what waited for the application still waits, in front of what is new, or a snapshot past it takes its place |
| `ReadyLoop.Server.Serve` | raft-kv/server/raft_node.cpp:132-168 | any run of steps, each followed by the rounds it calls for, keeps the stream to the application in order from its start, only extends it, ends with everything committed applied, and keeps the log below the cursor bounded by the two distances |
| `ReadyLoop.Server.ReadyIff` | raft-kv/raft/ready.cpp:41-50 | the two states a round starts from are, in terms of the one log, exactly those that every step of a cluster leaves |
| `ReadyLoop.Server.Round` | raft-kv/server/raft_node.cpp:134-167 | one turn saves the tail, hands over exactly the next page, perhaps compacts, and leaves the rest of the log unchanged |
| `ReadyLoop.Server.LoadSnapshot` | raft-kv/server/raft_node.cpp:197-229 | a restored snapshot is stored and loaded, and the cursors jump to it |
| `ReadyLoop.Server.EntriesToApply` | raft-kv/server/raft_node.cpp:358-373 | skips what has been applied, stops exactly on a gap |
| `ReadyLoop.Server.PublishEntries` | raft-kv/server/raft_node.cpp:293-355 | the loop hands over the entries in order, configuration changes included, skips a configuration change that cannot be decoded and then leaves the cursor behind it |
| `ReadyLoop.PublishedEach` | raft-kv/server/raft_node.cpp:293-355 | each entry of a page is handed over or skipped by itself, whatever is around it |
| `ReadyLoop.CursorIsLast` | raft-kv/server/raft_node.cpp:345-346 | the cursor ends at the last entry that was handed over, and stays if none was |
| `ReadyLoop.PublishedAre` | raft-kv/server/raft_node.cpp:293-355 | a page reaches the application whole if and only if each of its configuration changes can be decoded |
| `ReadyLoop.NextPageAcceptedIff` | raft-kv/server/raft_node.cpp:358-373 | the page after it is accepted, instead of stopping the process at a gap, if and only if the last entry of this page could be decoded |
| `ReadyLoop.Server.MaybeTriggerSnapshot` | raft-kv/server/raft_node.cpp:375-429 | when more entries were applied since the last snapshot than the limit: a snapshot at the cursor with the term of the log there, and a log that starts the catch-up distance below it; otherwise nothing changes; never a stop |
| `ReadyLoop.Server.Finish` | raft-kv/server/raft_node.cpp:164-166 | the same for the end of a round, after which the cursors of the log have moved |
| `ReadyLoop.Server.SaveEntries` | raft-kv/server/raft_node.cpp:151-153 | saving the tail leaves the log as it was |
| `ReadyLoop.Server.Advance` | raft-kv/raft/node.cpp:186-222 | the cursors move, the saved tail is dropped, the log stays |
| `ReadyLoop.CompactionAccepted` | raft-kv/server/raft_node.cpp:375-425 | compaction is never refused if and only if snapshots are at least the catch-up distance apart |
| `ReadyLoop.ServerNeverRefused` | raft-kv/server/raft_node.cpp:17-18 | with the two constants of the server, which are equal, no compaction is ever refused, whatever the log base and the cursors |
| `ReadyLoop.PageIs` | raft-kv/raft/ready.cpp:41-50 | a page starts right above the cursor, is numbered without gaps, and is empty only when all is applied |
| `Durability.ReadyFlagIff` | raft-kv/raft/ready.cpp:21-32 | exactly when the must_sync flag of a Ready is right: it compares the new hard state with itself |
| `Durability.VoteNotFlagged` | raft-kv/raft/ready.cpp:21-32 | a concrete Ready for which the flag is wrong: a new vote without entries |
| `Durability.WalDecidesRight` | raft-kv/wal/wal.cpp:351-381 | the write-ahead log, which goes by the last state it wrote, decides like is_must_sync on the previous state of the node exactly when the two previous states tell the same of the new one |
| `Durability.WalNeverLess` | raft-kv/wal/wal.cpp:351-381 | with the state before the save, or with the empty one right after a restart, every save that must be durable is synced, and while the process runs no other |
| `Flow.InFlights.Add` | raft-kv/raft/progress.cpp:23-44 | a full window stops; otherwise the message goes to the end, growing or wrapping the buffer |
| `Flow.InFlights.FreeTo` | raft-kv/raft/progress.cpp:48-79 | drops exactly the front up to the index, the start wrapping |
| `Flow.InFlights.FreeFirstOne` | raft-kv/raft/progress.cpp:81-83 | drops the oldest message |
| `Flow.InFlights.Scan` | raft-kv/raft/progress.cpp:54-68 | the loop counts the messages to drop |
| `Flow.InFlights.IsFull` | raft-kv/raft/progress.h:33-35 | full at size messages |
| `Flow.InFlights.Reset` | raft-kv/raft/progress.h:28-31 | the window becomes empty |
| `Flow.Progress.ResetState` | raft-kv/raft/progress.cpp:112-117 | pause, pending snapshot and window are cleared |
| `Flow.Progress.BecomeReplicate` | raft-kv/raft/progress.cpp:85-88 | as the value says |
| `Flow.Progress.BecomeProbe` | raft-kv/raft/progress.cpp:90-105 | as the value says, past a pending snapshot |
| `Flow.Progress.BecomeSnapshot` | raft-kv/raft/progress.cpp:107-110 | as the value says |
| `Flow.Progress.IsPaused` | raft-kv/raft/progress.cpp:132-147 | paused, full or waiting, by state |
| `Flow.Progress.MaybeUpdate` | raft-kv/raft/progress.cpp:149-160 | match and next only rise; says whether it was news |
| `Flow.Progress.MaybeDecreaseTo` | raft-kv/raft/progress.cpp:168-193 | lowers next only for a fresh rejection |
| `Flow.Progress.NeedSnapshotAbort` | raft-kv/raft/progress.cpp:195-197 | the follower caught up with the pending snapshot |
| `ProgressSpec.FreeToDropsExactly` | raft-kv/raft/progress.cpp:48-79 | on a rising window, acknowledging up to an index drops exactly the messages up to it |
| `ProgressSpec.WindowPush` | raft-kv/raft/progress.h:107-109 | an optimistic send keeps the window rising below next |
| `ProgressSpec.AcceptWindow` | raft-kv/raft/raft.cpp:697-705 | an acknowledgement keeps the window strictly between match and next |
| `Probing.RejectionLowers` | raft-kv/raft/progress.cpp:181-193 | a fresh rejection strictly lowers next, never to the last agreed index or below |
| `Probing.Settles` | raft-kv/raft/raft.cpp:669-679 | from every next, finitely many rejections lead to a probe that is accepted |
| `Probing.ProbeRound` | raft-kv/raft/raft.cpp:669-679 | the append that the leader sends to a probed follower, the answer of the follower and the handling of that answer are one turn of this recursion: rejected exactly when it says so, and then next is its next value |
| `Probing.SettlesAbove` | raft-kv/raft/progress.cpp:181-193 | the accepted probe lies at or above the end of the common prefix |
| `Probing.SettlesShared` | raft-kv/raft/raft.cpp:1136-1142 | where probing settles, follower and leader share everything below |
| `ReadQueue.AdvanceReleases` | raft-kv/raft/readonly.cpp:27-56 | advancing on a pending context releases exactly the front of the queue up to it, once each, in order, with non-decreasing indices, and keeps the rest |
| `ReadQueue.AdvanceNeverFails` | raft-kv/raft/readonly.cpp:33-38 | the stop on a missing entry is unreachable |
| `ReadQueue.AddKeeps` | raft-kv/raft/readonly.cpp:58-69 | adding a request keeps queue and map consistent, without duplicates, indices in order |
| `ReadQueue.AckKeeps` | raft-kv/raft/readonly.cpp:14-25 | an acknowledgement keeps them consistent |
| `ReadOnlyObject.ReadIndexQueue.LastPendingRequestCtx` | raft-kv/raft/readonly.cpp:6-12 | the newest request, or nothing |
| `ReadOnlyObject.ReadIndexQueue.RecvAck` | raft-kv/raft/readonly.cpp:14-25 | records the sender and returns the count, the leader included; 0 for an unknown context |
| `ReadOnlyObject.ReadIndexQueue.AddRequest` | raft-kv/raft/readonly.cpp:58-69 | as the value says; a known context is not queued again |
| `ReadOnlyObject.ReadIndexQueue.Walk` | raft-kv/raft/readonly.cpp:32-46 | the walk collects the waiting requests up to the context, or the whole queue if it is not there |
| `ReadOnlyObject.ReadIndexQueue.Drop` | raft-kv/raft/readonly.cpp:50-53 | the second loop removes exactly the released requests from the map |
| `ReadOnlyObject.ReadIndexQueue.Advance` | raft-kv/raft/readonly.cpp:27-56 | the loops compute the value's advance, and the stop is not reached |
| `WalFile.LenRoundTrip` | raft-kv/wal/wal.h:39-48 | a record length comes back as it was if and only if it fits three bytes |
| `WalFile.TornTail` | raft-kv/wal/wal.cpp:230-287 | for every prefix of a stream of records that fit, the reader returns exactly the records wholly inside and cuts the file to the end of the last |
| `WalFile.RoundTrip` | raft-kv/wal/wal.cpp:83-92 | with no tear everything is read back and nothing is cut |
| `WalFile.AppendAfterTear` | raft-kv/wal/wal.cpp:67-92 | records appended after a torn tail was cut are read back behind the old whole ones |
| `WalFile.ParseIff` | raft-kv/wal/wal.cpp:230-287 | for every byte sequence: the records returned stand in it one right after the other, each with a checksum that is absent or that of its data, none stands behind them, and the file is cut there unless the scan came to its end |
| `WalFile.DamageFoundIff` | raft-kv/wal/wal.cpp:270-280 | overwriting the data of one record of a log makes reading return exactly the records before it and cut the file there, if and only if the checksums differ and the stored one is not 0 |
| `WalFile.SurvivesIff` | raft-kv/wal/wal.cpp:83-92 | a record survives writing and reading if and only if its type is not 0 and its length fits three bytes; longer data is written in full behind a clamped length |
| `WalFile.WholeInIs` | raft-kv/wal/wal.cpp:238-287 | the number of records wholly inside a prefix, defined independently of the reader |
| `WalFile.File.Append` | raft-kv/wal/wal.cpp:83-92 | the buffer grows by exactly one encoded record |
| `WalFile.File.Sync` | raft-kv/wal/wal.cpp:94-107 | the buffered bytes follow those of the file in order and the buffer is empty |
| `WalFile.File.Truncate` | raft-kv/wal/wal.cpp:67-81 | the file ends at the offset |
| `WalFile.File.ReadRecord` | raft-kv/wal/wal.cpp:239-280 | one turn of the scan decides as the parser does |
| `WalFile.File.ReadAll` | raft-kv/wal/wal.cpp:230-287 | the scan with a moving offset returns the parsed records and cuts a torn tail |
| `WalReplay.Replay` | raft-kv/wal/wal.cpp:285-349 | the loop replays entries and the last hard state, or stops: on a record of no known type, on a snapshot at the index of the start with another term, or when the snapshot is not in the log |
| `WalReplay.StopsIff` | raft-kv/wal/wal.cpp:320-349 | replay of the log that the server itself wrote stops if and only if it holds another snapshot for the index of the start |
| `WalReplay.RecoveryIff` | raft-kv/wal/wal.cpp:307-319 | replay above a snapshot index equals the memory fed the same saves if and only if the log reaches past that index or nothing above it was ever saved |
| `WalReplay.ReplayFollows` | raft-kv/wal/wal.cpp:312-315 | as soon as the log reaches past the snapshot, replay and memory hold the same entries above it |
| `WalReplay.StaleEntryReturns` | raft-kv/wal/wal.cpp:312-315 | a history of two saves and a local snapshot after which a restart from that snapshot brings back, above it, an entry of the earlier term that had been overwritten away |
| `WalReplay.StateComesBack` | raft-kv/wal/wal.cpp:412-422 | replay returns the last hard state that was saved |
| `WalReplay.BytesComeBack` | raft-kv/wal/wal.cpp:281-282 | through any faithful serializer the records of a history are read back from the bytes |
| `Glob.StringMatchLen` | raft-kv/server/redis_store.cpp:25-148 | a non-empty string matches exactly when the token list of the pattern describes it, the empty string only the empty pattern; it terminates and reads no byte behind the terminator |
| `Glob.ClassLoop` | raft-kv/server/redis_store.cpp:65-107 | the loop decides membership in a character class and stops at its end or at the end of the pattern |
| `Glob.StarStar` | raft-kv/server/redis_store.cpp:30-33 | consecutive stars mean one |
| `Glob.StarHere` | raft-kv/server/redis_store.cpp:34-44 | the last star of a run takes everything, or the rest must describe a non-empty end of the string |
| `Glob.ClassTurn` | raft-kv/server/redis_store.cpp:66-104 | one turn of the class loop handles one escaped character, range or character |
| `KvStore.RunHolds` | raft-kv/server/redis_store.cpp:543-592 | the law of the store over any history: a key has a value exactly when the last operation that touches it set it to that value, or none touches it and it had the value before |
| `KvStore.ApplyHolds` | raft-kv/server/redis_store.cpp:543-580 | a set leaves its value under its key, a delete nothing under its keys, and every other key stays |
| `KvStore.ReplayIdempotent` | raft-kv/server/redis_store.cpp:543-592 | replaying a history onto a store that already holds a part of it gives the store of the whole history |
| `KvStore.SnapshotPlusRest` | raft-kv/server/redis_store.cpp:365-403 | a snapshot of the first operations, loaded over any store whatever, and then the operations after it, give the store of all if and only if the snapshot has a pair or those operations touch every key that was there |
| `KvStore.OverTouched` | raft-kv/server/redis_store.cpp:543-592 | operations give the same over a store as over nothing if and only if they touch all its keys |
| `KvStore.RestartRecovers` | raft-kv/server/redis_store.cpp:365-403 | after a restart, where the store holds no fewer operations than the snapshot, recovery always gives the whole |
| `KvStore.LaggingFollowerKeeps` | raft-kv/server/raft_node.cpp:197-229 | a follower that is sent an empty snapshot ahead of it keeps a key that has been deleted: one set, one delete |
| `KvStore.BatchLoads` | raft-kv/server/redis_store.cpp:365-403 | the batch of any delete list that the loops may collect and of the puts leaves exactly the pairs, or the old store when there are none |
| `KvStore.LoadExactIff` | raft-kv/server/redis_store.cpp:365-403 | the batch leaves exactly the pairs of the snapshot if and only if there are any or the store was empty |
| `KvStore.EmptySnapshotKeeps` | raft-kv/server/redis_store.cpp:371-384 | with any delete list the loops may collect, the batch of an empty snapshot leaves a store that should become empty as it was: the list is filled inside the loop over the pairs |
| `KvStore.BackendsAgree` | raft-kv-master/raft-kv/server/redis_store.cpp:249-313 | along any run RocksDB and the hash map hold the same store at every point if and only if empty snapshots are only loaded into empty stores |
| `KvStore.RocksStore.LoadKv` | raft-kv/server/redis_store.cpp:365-403 | the batch of over-eager deletes and puts leaves exactly the pairs, unless there are none |
| `KvStore.RocksStore.KeysToDelete` | raft-kv/server/redis_store.cpp:367-384 | the nested loops list every stale key, if the snapshot has pairs |
| `KvStore.RocksStore.GetAllKeyValue` | raft-kv/server/redis_store.cpp:315-328 | the pairs collected give the store back |
| `KvStore.RocksStore.ReadCommit` | raft-kv/server/redis_store.cpp:543-580 | afterwards a key has a value exactly when the operation set it, or does not touch it and it had it |
| `KvStore.HashStore.ReadCommit` | raft-kv-master/raft-kv/server/redis_store.cpp:272-301 | afterwards a key has a value exactly when the operation set it, or does not touch it and it had it |
| `KvStore.HashStore.RecoverFromSnapshot` | raft-kv-master/raft-kv/server/redis_store.cpp:249-262 | the store becomes exactly the snapshot's pairs |

## Left out

- Membership change and learners: the voters of a cluster are fixed. A configuration change is an entry like any
  other, so the counting, filtering and publishing of such entries is modelled but not their effect.
- RaftObject.Raft.StepMsg: the object holds its log, its progress records and its read queue as values; RaftLog,
  Progress and ReadIndexQueue are proved to behave like those values, but the aliasing of the C++ objects is not
  modelled.
- RaftObject.Raft.RestoreFrom: a learner's refusal of a snapshot that makes it a voter, and the voters and learners
  taken from the snapshot, belong to membership change.
- RaftObject.Raft.constructor: the voters come from the configuration; those stored with a snapshot are not modelled.
- Cluster.NextBacked: the server's save before sending is one atomic event, and applying may stop at any committed
  entry. A crash in the middle of a save is covered on the level of the log file only.
- Cluster.RestartKept: recovery is assumed to return the entries that were saved; when it does is the subject of
  WalReplay.RecoveryIff.
- WalReplay.RecoveryIff: histories of saves and local snapshots without snapshots installed from a leader.
- WalFile.File.Sync: a completed write is taken to be durable; the source writes through stdio and flushes elsewhere.
- WalFile.File.ReadAll: one file; the stop on a missing snapshot after the last file is in WalReplay.Replay.
- Safety.NeverFatal: on the message path, with the restored snapshot applied before the next step, as the server
  does; entry points for configuration are not covered.
- ReadyLoop.Server.Advance: the previous soft and hard state and the clearing of read states are not part of the
  object; what the previous hard state decides is the subject of Durability.
- ReadyLoop.Server.PublishEntries: the effect of a configuration change, with the early return when the node removes
  itself, is not modelled.
- ReadyLoop.Server.TakeStep: a step that reaches one of the stops of the log says nothing about the log afterwards;
  Safety.NeverFatal shows that no counted run reaches one.
- Integers are unbounded where the source has 64 bits; the 32-bit running sum of payload sizes, the 24-bit record
  length and its 32-bit argument are modelled. The 32-bit fields of the ring buffer are not.
- Time: ticks appear as MsgHup, MsgBeat and MsgCheckQuorum at any moment, and whether the election timeout has
  passed is a free choice at every delivery. Nothing is claimed about leaders stepping down, and about liveness only
  that the runs of Reads and PreVote exist.
- Snapshot contents and configuration states inside messages: a snapshot in the consensus layer is its index and term.
- Lease-based reads: their answers are modelled, their freshness is not.
- MessagePack beyond single entries, CRC-32, RocksDB and the file system: a faithful serializer, some checksum, a map with ordered write
  batches, a byte sequence. Directories, names and segments of log files are not modelled.
- Sockets, timers, threads, sessions, status codes, logging, `all_entries` and status reports.
- Nothing was executed.
