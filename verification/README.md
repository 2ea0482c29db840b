# Josefine: a Dafny model of the Chained Raft cluster

This project models the Raft layer of Josefine and the broker state it
replicates, and proves what every execution of a cluster guarantees. Nothing in
it runs the original program.

## How it is laid out

Two accounts of the same code meet in the middle.

* The **objects**. `Chain`, `Election`, `ReplicationProgress`, `Driver`, `Raft`,
  `Store`, `JosefineFsm`, `Index` and `Segment` are classes with the fields of the
  source and one method per handler, loops included. Each method is proved equal
  to a function on values: `Raft.Handle` to `Nodes.Step`, the chain's methods to
  the functions in `Chain.dfy`, and so on. What the handlers mean is said apart from
  them, in terms of the command and the node's fields alone, in `Handlers.dfy`.
* The **cluster** (`Cluster.dfy`). A map from member ids to node values, the set
  of all messages ever sent, and the history of accepted requests. A step is one
  node applying one command through `Nodes.Step`, a crash, or a driver's answer
  entering the network. Any message may be delivered any number of times, in any
  order, or never. Timer readings are free booleans. A panic, a failed assertion
  or an `Err` stops that node for good; any node may also crash at any moment.

| file | contents |
|---|---|
| `Types.dfy`, `BlockKeys.dfy` | vocabulary; block ids as big-endian byte keys |
| `Chain.dfy`, `ChainStore.dfy` | the store and its range scans; the chain object and compaction |
| `Election.dfy`, `Progress.dfy` | the tally; replication progress and the quorum index |
| `Node.dfy`, `Raft.dfy` | every handler on values; the object proved equal to it |
| `Cluster.dfy`, `ElectionSafety.dfy` | runs of a cluster; at most one leader |
| `Replication.dfy`, `ReplicationSteps.dfy`, `Invariant.dfy` | the inductive invariant and its preservation by every event |
| `Monotone.dfy`, `Driver.dfy` | what only grows; the state machine driver |
| `Theorems.dfy` | the guarantees |
| `Handlers.dfy`, `NetworkLaws.dfy` | what each command does and what is sent for it; what the messages of a run say |
| `Validity.dfy` | where the accepted requests come from |
| `CommitKey.dfy`, `Stops.dfy` | how far the commit key lets a cluster commit; exactly when a node stops, and on what |
| `Execution.dfy`, `OneNodeRun.dfy`, `TwoNodeRun.dfy`, `ThreeNodeRun.dfy`, `FiveNodeRun.dfy` | executions followed step by step |
| `MetadataStore.dfy`, `EndToEnd.dfy` | broker metadata in one flat tree; the cluster running it |
| `SegmentLog.dfy` | the log segment and its index |

## Why it is safe

The textbook term checks are not what makes this code safe: votes are counted
whatever their term, and a heartbeat sets the term unconditionally. Two
absorbing states do the work. A follower that has voted stays a follower that has
voted, so each node grants at most once in its life; and a leader stays a leader.
Hence at most one node ever leads. Until it does, every store holds genesis alone;
afterwards every stored block is one of the leader's, every batch in the network
hangs from a block its addressee already has, and every member stores the head
the leader believes it has. `ClusterInvariant.Inv` says this in full.

The commit key splits the ids in two. Before anything is committed the leader offers
blocks past the key only to members that have acknowledged something, and with the
leader these are at most half. Once something is committed its scans no longer pass
the key. So of two or more members at most half ever get past it: `CommitKeys.KeyInv`.

## What turned out false

* **Nodes can stop.** `StepFate` says, for every command that can reach a running
  node, whether it stops the node and on what; `StopsHaveCauses` says that every stop
  but a crash arose that way. Each way has an execution:
  * the commit pointer is stored under the key `commit` in the tree of blocks, and a
    range decodes whatever it meets. Replication ends the leader exactly when something
    is committed and for some peer fewer blocks lie before that key than its iterator
    asks for (`TickStopsLeader`). `CommitStopsPair` gets there on a tick, with two nodes
    and a single request; `AnswerStopsLeader` on an answer to a heartbeat, with three;
  * a commit range meets the key only at a leader without peers, on the request that
    takes the key's place among the ids: `KeyStopsLoneLeader` is that run. In a cluster
    of two or more no acknowledgement, request or heartbeat ever does
    (`KeyMetByReplication`), because no member ever commits that far
    (`CommitsStayBelowKey`);
  * the leader's entries stop a follower that has voted for another node and is in a
    later term (`EntriesStopReceiver`). `ConflictReachable` is such a run of five nodes;
  * a request fails the id assertion exactly when the last 64-bit id is in use
    (`RequestExhausts`). `IdsRunOut` is a run of two nodes to that point.
* **Compaction can remove an ancestor of the commit pointer.**
  `CompactDropsAncestor` gives a store built by the chain's own operations;
  `CompactIdle` says that no store of a cluster is one; `CompactKeepsPath` says that
  the path survives if and only if each ancestor that has a nearest block above it, below the
  commit pointer, is named by that block.
* **The log index overwrites itself.** Entries are sixteen bytes long and sit one
  byte apart. `ReadBackExactly` says which offsets read back as written: the last
  one, and offset 0 once nine more entries follow; `SecondOffsetLost` is an example.
  A segment also counts from 0 whatever its base: `FirstWriteAccepted` says at which
  bases it takes a record, and `BaseOneRefuses` is one at which it does not.

The documentation of `Command::HeartbeatResponse` calls its first field the
leader's commit index; the code sends the follower's own, and so does the model.

## Model

| member | source | states |
|---|---|---|
| BlockKeys.BlockKeyOrder | src/raft/chain.rs:29-67 | for all 64-bit ids, lexicographic order and equality of the stored keys are numeric order and equality |
| BlockKeys.CommitKeyOrder | src/raft/chain.rs:195-205 | the key "commit" is no block's key and sorts below exactly the ids from 0x636f6d6d69740000 on |
| BlockKeys.BigEndianRoundTrip | src/broker/log/entry.rs:18-36 | reading back a big-endian number gives the number, for every width |
| Chains.ScanIsKeyInterval | src/raft/chain.rs:208-228 | a range, half-open, inclusive or open-ended, yields exactly the keys of the tree that lie in the byte interval, each with the value stored under it |
| Chains.ScanAscends | src/raft/chain.rs:208-228 | each of these ranges yields its keys in strictly ascending byte order |
| Chains.DrainWhole | src/raft/chain.rs:208-228 | consuming a range over ids that are all stored yields consecutive blocks, and all of them unless it meets the commit key |
| Chains.DrainThrough | src/raft/chain.rs:208-228 | the same for a range that includes its upper end |
| Chains.CommitEntryPlace | src/raft/chain.rs:208-228 | the one place at which an open-ended range over a gapless store meets the commit key |
| ChainStore.Chain.Open | src/raft/chain.rs:117-153 | an empty tree gives the fresh chain; with a pointer above 0 the tree is unchanged and head, commit and generator are at it; otherwise genesis is stored and the generator at 1 |
| ChainStore.Chain.Has | src/raft/chain.rs:155-157 | whether the block is stored |
| ChainStore.Chain.Append | src/raft/chain.rs:160-175 | succeeds iff the generated id is above the head; then the head is a new block with the data whose parent is the old head |
| ChainStore.Chain.Extend | src/raft/chain.rs:178-192 | succeeds iff the parent is stored; the whole new state |
| ChainStore.Chain.Commit | src/raft/chain.rs:195-205 | succeeds iff the block is stored; the whole new state |
| ChainStore.Chain.Compact | src/raft/chain.rs:239-253 | removes exactly the blocks whose nearest stored id above them, below commit, exists and does not name them; where the walk down from commit meets the commit key it fails there, and only blocks above that key are removed |
| ChainStore.CompactKeepsPath | src/raft/chain.rs:239-253 | the ancestors of commit after compaction are those before it iff each that has such a neighbour is named by it |
| ChainStore.CompactExactly | src/raft/chain.rs:239-253 | below the commit key a block goes iff the next stored id above it lies below commit and has another parent; what stays is unchanged |
| ChainStore.CompactDropsAncestor | src/raft/chain.rs:239-253 | appending, extending and committing build a store from which compaction removes an ancestor of the commit pointer |
| ChainStore.CompactKeepsGapless | src/raft/chain.rs:239-253 | a gapless chain loses nothing |
| Theorems.CompactIdle | src/raft/chain.rs:239-253 | compacting any store of any execution removes nothing |
| Elections.StatusOfAnyOrder | src/raft/election.rs:37-57 | the outcome folded over the votes is the same for every iteration order |
| Elections.VoteFromOpen | src/raft/election.rs:33-57 | from an open tally one more vote, new or overwriting, leaves it open or decided; the defeat test by equality fires iff refusals have reached the quorum |
| Elections.QuorumsMeet | src/raft/election.rs:66-73 | two majorities of the members share one |
| Elections.Election.constructor | src/raft/election.rs:19-27 | these voters, no votes |
| Elections.Election.Reset | src/raft/election.rs:29-31 | the same voters, no votes |
| Elections.Election.Vote | src/raft/election.rs:33-35 | the tally with this vote recorded |
| Elections.Election.Outcome | src/raft/election.rs:37-57 | counting in whatever order the map yields the votes gives the status of the tally |
| ProgressTracking.Advanced | src/raft/progress.rs:76-141 | the head becomes the larger of the two, the member replicates iff it rose, no snapshot appears, and what else it carries is kept |
| ProgressTracking.MiddleIsQuorum | src/raft/progress.rs:48-60 | the middle of a descending sequence is the largest value reached by a strict majority, for odd and even lengths |
| ProgressTracking.SortFacts | src/raft/progress.rs:58-59 | sorting gives a descending permutation |
| ProgressTracking.QuorumIndexMonotone | src/raft/progress.rs:48-60 | the quorum index never falls when no head falls |
| ProgressTracking.AdvancesOnlyRaise | src/raft/progress.rs:42-60 | over any sequence of acknowledgements: same members, no snapshot, no head and no quorum index falls |
| ProgressTracking.ReplicationProgress.constructor | src/raft/progress.rs:15-23 | every node is probed from block 0 |
| ProgressTracking.ReplicationProgress.Advance | src/raft/progress.rs:42-46 | fails for unknown nodes and snapshots, else advances that node only |
| ProgressTracking.ReplicationProgress.CommittedIndex | src/raft/progress.rs:48-60 | the largest head value that a strict majority of the members has reached, whatever order the map yields them in |
| RaftNode.Raft.constructor | src/raft/follower.rs:68-91 | over any store, a follower that has not voted, in term 0, with nothing sent or handed on |
| RaftNode.StartFresh | src/raft/follower.rs:68-91 | a node over an empty store is the node every run starts from |
| RaftNode.Raft.Send | src/raft/mod.rs:390-394 | one message from this node is added to those sent |
| RaftNode.Raft.Feed | src/raft/leader.rs:93-95 | hands on the blocks of a range, all or all but the first, up to the commit key |
| RaftNode.Raft.LeaderCommits | src/raft/leader.rs:87-99 | equals LeaderCommit |
| RaftNode.Raft.LeaderCollects | src/raft/leader.rs:131-157 | on a gapless store the iterator fails iff it meets the commit key, else the batch is the next block, the next MAX_INFLIGHT, or all blocks after the member's head |
| RaftNode.Raft.LeaderReplicates | src/raft/leader.rs:124-174 | equals LeaderReplicate, messages included |
| RaftNode.Raft.LeaderHeartbeats | src/raft/leader.rs:44-51 | one heartbeat with term and commit pointer is broadcast |
| RaftNode.Raft.LeaderTicks | src/raft/leader.rs:234-245 | equals LeaderTick |
| RaftNode.Raft.LeaderTakesAck | src/raft/leader.rs:211-219 | equals LeaderAppendResponse |
| RaftNode.Raft.LeaderTakesRequest | src/raft/leader.rs:177-197 | equals LeaderRequest |
| RaftNode.Raft.LeaderTakesEntries | src/raft/leader.rs:200-208 | equals LeaderAppendEntries |
| RaftNode.Raft.ApplyAsLeader | src/raft/leader.rs:248-266 | equals LeaderApply for every command |
| RaftNode.Raft.BecomeLeader | src/raft/candidate.rs:220-242 | the candidate with fresh progress for all members |
| RaftNode.Raft.BecomeFollower | src/raft/candidate.rs:202-218 | a follower without a leader that keeps the queued requests |
| RaftNode.Raft.CandidateTakesVote | src/raft/candidate.rs:91-117 | equals CandidateVoteResponse, whose meaning is VoteDecides |
| RaftNode.Raft.CandidateSeeksElection | src/raft/candidate.rs:24-45 | equals SeekElection: a new term, one broadcast per peer, its own vote |
| RaftNode.Raft.CandidateTicks | src/raft/candidate.rs:48-68 | equals CandidateTick |
| RaftNode.Raft.CandidateTakesCall | src/raft/candidate.rs:71-88 | equals CandidateVoteRequest |
| RaftNode.Raft.CandidateTakesEntries | src/raft/candidate.rs:120-138 | equals CandidateAppendEntries |
| RaftNode.Raft.CandidateTakesHeartbeat | src/raft/candidate.rs:141-161 | equals CandidateHeartbeat |
| RaftNode.Raft.ApplyAsCandidate | src/raft/candidate.rs:174-200 | equals CandidateApply for every command |
| RaftNode.Raft.FollowerTimesOut | src/raft/follower.rs:248-256 | equals FollowerTimeout: a new candidacy iff it has not voted |
| RaftNode.Raft.FollowerTakesCall | src/raft/follower.rs:219-246 | equals FollowerVoteRequest, whose meaning is CallAnswered |
| RaftNode.Raft.FollowerExtends | src/raft/follower.rs:157-160 | the store after the blocks up to the first whose parent is missing |
| RaftNode.Raft.FollowerTakesEntries | src/raft/follower.rs:130-176 | equals FollowerAppendEntries, whose meaning is EntriesAdopt, EntriesRefused and EntriesAnswered |
| RaftNode.Raft.FollowerForwards | src/raft/follower.rs:189-197 | every queued request is sent to the leader, in order, and marked proxied |
| RaftNode.Raft.FollowerAdvances | src/raft/follower.rs:199-207 | the store with its pointer moved, the blocks from the old pointer up to the new one handed on as far as the range gets, and the cause if it fails |
| RaftNode.Raft.FollowerTakesHeartbeat | src/raft/follower.rs:178-217 | equals FollowerHeartbeat, whose meaning is HeartbeatAnswered |
| RaftNode.Raft.FollowerTakesRequest | src/raft/follower.rs:258-269 | equals FollowerRequest |
| RaftNode.Raft.FollowerTakesResponse | src/raft/follower.rs:271-282 | equals FollowerResponse |
| RaftNode.Raft.ApplyAsFollower | src/raft/follower.rs:36-64 | equals FollowerApply for every command |
| RaftNode.Raft.Handle | src/raft/mod.rs:471-479 | the object moves exactly as Step says, for every role, command and timer reading |
| HandlerLaws.EntriesAdopt | src/raft/follower.rs:137-144 | a follower takes the sender's term, vote and leadership iff it has not voted and the sender is not behind it |
| HandlerLaws.EntriesRefused | src/raft/follower.rs:146-160 | entries stop a follower iff they come from an older leader than the one voted for or a parent is neither stored nor earlier in the batch |
| HandlerLaws.EntriesAnswered | src/raft/follower.rs:156-173 | otherwise the store holds exactly the old blocks and the batch, and one acknowledgement of its last block goes to the sender iff it is not empty |
| HandlerLaws.HeartbeatAnswered | src/raft/follower.rs:178-217 | the sender's term, vote and leadership are taken, queued requests go to it in order, then one answer with the commit pointer as it now is and whether the announced block is stored |
| HandlerLaws.HeartbeatsAnswered | src/raft/follower.rs:209-215 | in every execution every heartbeat at a follower is so answered |
| HandlerLaws.CallAnswered | src/raft/follower.rs:219-246 | one answer, a grant iff the follower has not voted, its term is at most the caller's and its commit pointer at most the caller's head; the vote is recorded iff granted |
| HandlerLaws.RequestForwarded | src/raft/follower.rs:258-269 | a request is sent to the leader under the follower's own address and remembered, or queued last if there is none |
| HandlerLaws.ReplyHandedOn | src/raft/follower.rs:271-282 | the client gets the reply that arrived |
| HandlerLaws.TimeoutStands | src/raft/follower.rs:248-256 | a follower stands iff its timer ran out and it has not voted: next term, own vote, one call per peer with term and head |
| HandlerLaws.CandidateStandsAgain | src/raft/candidate.rs:48-68 | a candidate stands again in the next term iff its timer ran out |
| HandlerLaws.CallAtCandidate | src/raft/candidate.rs:71-88 | a later term makes it resign without vote or answer, any other call is refused |
| HandlerLaws.EntriesAtCandidate | src/raft/candidate.rs:120-138 | it resigns iff their term is not behind its own; nothing is stored or answered |
| HandlerLaws.HeartbeatAtCandidate | src/raft/candidate.rs:141-161 | it resigns for the sender and answers with its commit pointer and whether the announced block is stored |
| HandlerLaws.RequestAtCandidate | src/raft/candidate.rs:174-200 | a request is queued last |
| HandlerLaws.VoteDecides | src/raft/candidate.rs:91-117 | with more than half of the voters for it a candidate leads and broadcasts one heartbeat, with more than half against it it resigns without a vote, else it goes on |
| HandlerLaws.VotesDecideElection | src/raft/candidate.rs:91-117 | the same in every execution, against the number of members, both ways |
| HandlerLaws.TickOffers | src/raft/leader.rs:234-245 | a heartbeat iff it is time, then one offer of what it lacks to each peer in order |
| HandlerLaws.AnswerOffers | src/raft/leader.rs:222-231 | one such offer to each peer iff the answering member has committed something and lacks what was announced |
| HandlerLaws.TickReaches | src/raft/leader.rs:124-174 | whatever the progress, a tick reaches exactly the peers that are probes not paused or replicating with room |
| HandlerLaws.AckRecorded | src/raft/leader.rs:211-219 | the sender's progress rises to the block it names, no other's moves, and the commit pointer is the largest id a majority has reached |
| HandlerLaws.RequestAppended | src/raft/leader.rs:177-197 | the next block with the proposal, announced with the address to answer to, acknowledged by the leader itself |
| HandlerLaws.LeaderCommitsQuorum | src/raft/leader.rs:87-99 | a running leader's commit pointer is the largest id a majority has reached |
| HandlerLaws.EntriesAtLeader | src/raft/leader.rs:200-208 | entries end a leader iff their term is later |
| HandlerLaws.AckOfStranger | src/raft/progress.rs:42-46 | an acknowledgement by no member ends the leader |
| HandlerLaws.ElectedTooLate | src/raft/candidate.rs:48-68 | a candidate that finds itself elected when its timer ran out ends |
| HandlerLaws.Ignored | src/raft/mod.rs:471-479 | commands a role has no use for change nothing and are not answered |
| NetworkLaws.VotesBind | src/raft/follower.rs:97-101 | a follower that has voted follows and has voted in every later state of a run |
| NetworkLaws.EntriesBind | src/raft/follower.rs:137-144 | so does one that took entries from a sender not behind it: it never stands again |
| NetworkLaws.GrantsAnswerCalls | src/raft/follower.rs:219-246 | in every execution each grant answers a call of the candidate it goes to in a term no earlier than the voter's |
| NetworkLaws.LeadersMakeThemselvesKnown | src/raft/candidate.rs:112-117 | in every execution each leader has broadcast a heartbeat in its term |
| ElectionSafety.StepElectoral | src/raft/follower.rs:97-101 | whatever the command: a leader stays one, a follower that has voted stays so, a grant comes alone from a follower that had not voted, a tally holds only votes given, a new leader has a winning set of voters |
| ElectionSafety.OneLeader | src/raft/candidate.rs:91-117 | two leaders are the same node, from majority intersection and single grants |
| ElectionSafety.NextKeepsElectionInv | src/raft/candidate.rs:24-117 | the election invariant survives every event |
| ReplicationSteps.ExtendBatch | src/raft/chain.rs:178-192 | a batch hanging from a stored block is accepted whole and overwrites a block only by itself |
| ReplicationSteps.FollowerHeartbeatOk | src/raft/follower.rs:178-217 | a heartbeat keeps the follower invariant and stores nothing |
| ReplicationSteps.ReplicateOk | src/raft/leader.rs:124-174 | every batch is a gapless run of the leader's blocks starting after the head recorded for its addressee |
| ReplicationSteps.FollowerCommitOk | src/raft/follower.rs:199-207 | handing on the range from the old commit pointer up to and without the new one keeps the follower's log a gapless run of the ledger from genesis, one block behind its commit pointer |
| ReplicationSteps.LeaderCommittedOk | src/raft/leader.rs:87-99 | handing on the range after the old commit pointer up to and with the new one keeps the leader's log a gapless run of its chain from block 1 to its commit pointer |
| ReplicationSteps.AppendOk | src/raft/chain.rs:160-175 | an append extends the ledger by one block naming the head, unless the last id is in use |
| ReplicationSteps.FreshLedger | src/raft/chain.rs:132-153 | the fresh chain is the ledger of no requests |
| ReplicationSteps.LeaderRequestOk | src/raft/leader.rs:177-197 | taking a request keeps the leader invariant with the request added to the history iff a block was appended, and moves no other member's progress |
| ClusterInvariant.NextKeepsInv | src/raft/server.rs:120-162 | every event at every node keeps the full invariant |
| ClusterInvariant.RunKeepsInv | src/raft/server.rs:120-162 | the invariant holds in every state of every run |
| Monotonicity.RunGrows | src/raft/mod.rs:8-14 | between any two states of a run stores, logs, messages and history only grow, commit pointers only advance, leaders remain |
| Monotonicity.NextGrows | src/raft/mod.rs:8-14 | the same for one event |
| Drivers.DriverReplays | src/raft/fsm.rs:57-93 | a driver's machine has seen the applied payloads, in order, genesis left out, and nothing else |
| Drivers.DriverAnswers | src/raft/fsm.rs:57-82 | on a log that announces each block first, one answer per applied block, in order, to the announced address, with that block's reply |
| Drivers.DriverSilent | src/raft/fsm.rs:57-82 | without announcements no answers |
| Drivers.Driver.constructor | src/raft/fsm.rs:39-50 | nothing executed, nobody waiting |
| Drivers.Driver.Exec | src/raft/fsm.rs:90-92 | one transition on the block's payload |
| Drivers.Driver.Run | src/raft/fsm.rs:52-88 | equals driving the whole queue |
| Theorems.OneLeaderEver | src/raft/candidate.rs:24-117 | at most one node is ever leader in a run, whatever the terms and the cluster size |
| Theorems.CandidaciesStayOpen | src/raft/candidate.rs:48-102 | a candidate has voted for itself, its tally is undecided and refusals are below the quorum |
| Theorems.StoresAgree | src/raft/mod.rs:8-14 | two stores with the same id hold the same block |
| Theorems.BlocksNeverChange | src/raft/chain.rs:160-192 | a block once stored anywhere is what every store holds under its id ever after |
| Theorems.StoresGapless | src/raft/chain.rs:139-205 | stores hold 0 to some id without gaps, each block names the id before it, parents lead from any stored id to genesis one by one, a leader commits within its head |
| Stops.ReachableStops | src/raft/chain.rs:160-205 | the only stops are crashes, the commit key at a leader that has committed, entries from an older other leader at a follower, and exhausted ids at a leader; the others are unreachable |
| Stops.StepFate | src/raft/server.rs:120-162 | for every command that can reach a running node in any execution: whether it stops the node, and with which cause |
| Stops.KeyMetByReplication | src/raft/leader.rs:124-174 | in a cluster of two or more a stop on the commit key is the leader's, on a tick or an answer to a heartbeat |
| CommitKeys.NextKeepsKey | src/raft/leader.rs:87-174 | every event keeps the members that have or are offered blocks past the commit key at half or fewer |
| CommitKeys.CommitsStayBelowKey | src/raft/leader.rs:87-99 | no member of a cluster of two or more ever commits a block past the commit key |
| CommitKeys.AloneCommitsHead | src/raft/leader.rs:177-219 | a running leader without peers has committed everything it has appended |
| OneNodeRun.KeyStopsLoneLeader | src/raft/leader.rs:87-99 | a reachable single node, all committed up to the commit key, that the next request stops there |
| ThreeNodeRun.AnswerStopsLeader | src/raft/leader.rs:222-231 | a reachable three-node state whose leader an answer to a heartbeat stops |
| Stops.StopsHaveCauses | src/raft/server.rs:120-162 | every node that has stopped and not crashed is as the command left it, handled earlier in the run, whose fate was that stop |
| Stops.RequestExhausts | src/raft/chain.rs:160-175 | at every running leader a request hits the id assertion iff the last 64-bit id is in use |
| TwoNodeRun.IdsRunOut | src/raft/chain.rs:160-175 | a reachable two-node state in which the last id is in use and the next request fails the assertion |
| Theorems.EntriesAccepted | src/raft/leader.rs:124-174 | every batch ever sent is accepted whole by its addressee whenever it arrives and rewrites nothing |
| Theorems.ReplicationSendsNext | src/raft/leader.rs:124-174 | a batch is exactly the next one, the next MAX_INFLIGHT, or all blocks after the head its addressee acknowledged and stores |
| Theorems.CommitDurable | src/raft/leader.rs:87-99 | more than half of the members store every block up to the leader's commit pointer, block for block |
| Theorems.NothingIsLost | src/raft/progress.rs:42-60 | commit pointers, logs, stores and the accepted history only move forward |
| Validity.AcceptedWereSubmitted | src/raft/leader.rs:177-197 | every accepted request has the id and proposal of one a client put to some node earlier in the run |
| Validity.StepCarries | src/raft/follower.rs:189-197 | a node keeps and sends only requests it held or was given, whatever the command |
| Theorems.DriversFollowHistory | src/raft/fsm.rs:59-66 | any driver at any point has executed the blocks of the first so many accepted requests, with ids 1, 2, ..., each once |
| Theorems.ExecutedAreLeaders | src/raft/fsm.rs:59-66 | these are the leader's own blocks 1, 2, ... |
| Theorems.StateMachineSafety | src/raft/fsm.rs:59-66 | the blocks two drivers have executed, at any two points of a run, have ids 1, 2, ... and agree up to the shorter, and so do the payloads |
| Theorems.FollowersTrail | src/raft/follower.rs:199-207 | the blocks a follower's driver executes are the leader's blocks 1, 2, ... and a prefix of those the leader's driver executes |
| Theorems.DriverLag | src/raft/follower.rs:199-207 | a running leader has handed on exactly its committed blocks, any other running member one fewer than it has committed |
| Theorems.ReplicasAreOneMachine | src/raft/fsm.rs:52-93 | every driver's machine is the machine that alone executes the accepted requests |
| Theorems.ClientsAnswered | src/raft/fsm.rs:57-82 | the leader's driver has answered exactly the requests whose blocks it applied: right address, right id, reply of its own transition |
| Theorems.AnswersAreDurable | src/raft/fsm.rs:67-76 | once answer j is sent, then and ever after more than half of the members store every block up to j + 1 as the leader has it |
| Theorems.OnlyLeaderAnswers | src/raft/fsm.rs:67-76 | no other driver answers anyone |
| Stops.TickStopsLeader | src/raft/leader.rs:124-174 | a tick stops the leader iff something is committed and for some peer fewer blocks lie before the commit key than its iterator asks for |
| Stops.PeersActive | src/raft/progress.rs:76-141 | every member is active and none a snapshot at every leader, so replication passes over nobody |
| Stops.EntriesStopReceiver | src/raft/follower.rs:146-154 | delivering entries stops the receiver iff it follows, has voted for another node and is in a later term |
| FiveNodeRun.ConflictReachable | src/raft/follower.rs:146-154 | a reachable five-node state in which a follower has stopped on the leader's entries |
| Nodes.BatchStops | src/raft/leader.rs:131-157 | one member's iterator fails iff fewer blocks lie before the commit key than it asks for |
| Nodes.BatchSize | src/raft/leader.rs:131-157 | otherwise the batch is consecutive blocks after the head, as many as its kind allows and all there are if there are fewer |
| TwoNodeRun.CommitStopsPair | src/raft/leader.rs:233-245 | a reachable two-node state, elected and committed, whose leader the next tick stops |
| MetadataStore.PartitionKeyInjective | src/broker/state/mod.rs:63-78 | the partition key determines topic and index for arbitrary topic strings |
| MetadataStore.BrokerKeyInjective | src/broker/state/mod.rs:70-74 | the broker key determines the id |
| MetadataStore.KeysDisjoint | src/broker/state/mod.rs:34-74 | partition, broker and topics keys never collide |
| MetadataStore.EnsureReads | src/broker/fsm.rs:42-50 | what one transition changes in each of the three readings, and that it changes nothing else there |
| MetadataStore.TreeRefinesMaps | src/broker/fsm.rs:42-50 | after any transitions the tree reads as three maps: first topic per name, last partition, last broker, nothing garbled |
| MetadataStore.Store.CreateTopic | src/broker/state/mod.rs:34-44 | equals the value-level transition |
| MetadataStore.Store.CreatePartition | src/broker/state/mod.rs:63-68 | equals the value-level transition |
| MetadataStore.Store.CreateBroker | src/broker/state/mod.rs:70-74 | equals the value-level transition |
| MetadataStore.JosefineFsm.Transition | src/broker/fsm.rs:42-50 | an undecodable payload is refused and changes nothing, any other is applied and answered with the encoded entity |
| EndToEnd.ReplayIsEnsureAll | src/broker/fsm.rs:40-51 | replaying payloads is applying those that decode, in order |
| EndToEnd.MetadataFollowsRequests | src/broker/fsm.rs:40-51 | in every execution each broker's metadata reads as the accepted requests it has executed prescribe |
| EndToEnd.RepliesAreDue | src/broker/fsm.rs:21-37 | whatever came before, a payload that decodes is answered with its entity and any other is refused |
| EndToEnd.ClientsToldOutcome | src/raft/fsm.rs:57-82 | in every execution the leader's driver has answered its requests in the order of acceptance, once each, with the outcome due to each |
| SegmentLog.EntryRoundTrip | src/broker/log/entry.rs:18-36 | decoding an encoded entry gives the entry |
| SegmentLog.IndexRoundTrip | src/broker/log/index.rs:41-54 | an entry written at any base reads back at its relative offset |
| SegmentLog.WrittenBytes | src/broker/log/index.rs:35-39 | byte by byte, what a write leaves in the map |
| SegmentLog.RefusedRecord | src/broker/log/segment.rs:56-63 | a record is in the file even if the index has no room, and then the counters do not move |
| SegmentLog.Index.constructor | src/broker/log/index.rs:17-33 | what the file held, cut or filled up with zeros to MAX_BYTES_INDEX bytes |
| SegmentLog.Segment.constructor | src/broker/log/segment.rs:22-40 | the log file as it was, written from its start, and counters at 0 whatever the base |
| SegmentLog.Index.WriteAt | src/broker/log/index.rs:35-39 | copies what fits; succeeds iff all fits |
| SegmentLog.Index.WriteEntry | src/broker/log/index.rs:41-46 | equals PutEntry: relative offset, unscaled placement |
| SegmentLog.Index.Read | src/broker/log/index.rs:49-54 | equals ReadEntry |
| SegmentLog.Segment.Write | src/broker/log/segment.rs:56-63 | equals Recorded: file first, then index, then counters |
| SegmentLog.RecordedTallies | src/broker/log/segment.rs:56-63 | whatever the files held: counters, file position and map agree with the records; a write fails iff the map has no room |
| SegmentLog.FileHoldsRecord | src/broker/log/segment.rs:56-63 | each record is found in the file where it starts |
| SegmentLog.FileTail | src/broker/log/segment.rs:56-63 | behind the records the file is what it was |
| SegmentLog.LastRecordFound | src/broker/log/index.rs:41-54 | looking up the last offset gives the position at which the last record starts |
| SegmentLog.ReadBackExactly | src/broker/log/index.rs:41-54 | an offset reads back as written iff it is the last, or the first with nine more behind it |
| SegmentLog.SecondOffsetLost | src/broker/log/index.rs:41-54 | of three one-byte records the second offset does not read back |
| SegmentLog.FirstWriteAccepted | src/broker/log/index.rs:41-46 | a segment just opened accepts a record iff its base is 0 or so close below 2^64 that the wrapped difference fits the map |
| SegmentLog.BaseOneRefuses | src/broker/log/index.rs:41-46 | a new segment at base 1 refuses its first record |

## Left out

- Restarting a process on a non-empty store: votes and terms are not persisted, and `Chain.Open` models only how such a store is opened.
- Wall-clock time and randomised timeouts: timer readings are arbitrary, and nothing is claimed about progress.
- TCP, framing, JSON and bincode: messages are values. Of the routing only the rule is kept that no node sends to itself.
- The table of waiting clients in the event loop: an answer whose waiter is missing ends the process, which the model covers as a crash.
- Arithmetic on terms, ids, offsets and counters wraps at 2^64 as in a release build; the panics of a debug build are crashes in the cluster and not modelled in the log segment.
- Reading a segment's log file, which moves the position at which the next record is written.
- `Report` lets any answer of a driver enter the network at any time; what drivers answer is proved from their logs.
- End-to-end delivery of queued and proxied requests: queues are dropped on some role changes.
- The state machine is deterministic and total; its encoding of answers is a parameter.
- Rolling a log over to a new segment beyond `FirstWriteAccepted`, and searching the index by offset.
- Consumer groups and the remaining readers of the broker store, which add no new keys to the model.
- The Kafka codec, client and request handlers, configuration, tracing and shutdown.
