/** An execution of three nodes followed step by step: the leader commits through
    one peer and stops on the other's answer to a heartbeat. */
module ThreeNodeRun {
  import opened RaftTypes
  import opened Chains
  import opened Elections
  import opened ProgressTracking
  import opened Nodes
  import opened Clusters
  import opened Executions
  import opened ElectionSafety
  import opened Replication
  import opened ReplicationSteps
  import opened ClusterInvariant
  import opened CommitKeys
  import opened Theorems
  import opened Stops

  // ---- The trio ----

  /** A follower that node 1 may lead. */
  ghost predicate Willing(n: Node) {
    n.role.Follower? && n.health.Running? && (n.votedFor.Some? ==> n.votedFor.value == 1)
  }

  /** Node 1 leads with `head` blocks, knows of node 2 what `p` says and nothing of node 3. */
  ghost predicate Leading(c: Cluster, head: nat, p: NodeProgress) {
    && Reachable(c) && c.nodes.Keys == {1, 2, 3} && IsLeader(c, 1)
    && c.nodes[1].health.Running? && c.nodes[1].id == 1 && c.nodes[1].peers == [2, 3] && c.nodes[1].chain.head == head
    && c.nodes[1].role.progress.Keys == {1, 2, 3}
    && c.nodes[1].role.progress[2] == p && c.nodes[1].role.progress[3] == NewProgress()
    && Willing(c.nodes[2]) && Willing(c.nodes[3])
  }

  lemma TrioQuorum(heads: map<NodeId, BlockId>, v: nat)
    requires heads.Keys == {1, 2, 3} && heads[3] == 0 && heads[2] <= heads[1] && v > 0
    ensures MajorityReached(heads, v) <==> v <= heads[2]
  {
    assert |heads| == |heads.Keys| == |{1, 2, 3}| == 3;
    if v <= heads[2] {
      assert Reached(heads, v) == {1, 2};
      assert |{1, 2}| == 2;
    } else {
      SubsetSize(Reached(heads, v), {1});
    }
  }

  /** The leader has committed what node 2 has. */
  lemma CommitIs(c: Cluster, head: nat, p: NodeProgress)
    requires Leading(c, head, p)
    ensures c.nodes[1].chain.commit == p.head <= head
  {
    hide Reachable, DataInv, Ledger, Exposed, MajorityReached, AllActive;
    LeaderSound(c, 1);
    ReachableKey(c, 1);
    LeaderMajority(c, 1);
    var heads := Heads(c.nodes[1].role.progress);
    TrioQuorum(heads, c.nodes[1].chain.commit + 1);
    if c.nodes[1].chain.commit > 0 {
      TrioQuorum(heads, c.nodes[1].chain.commit);
    }
  }

  // ---- Election and requests ----

  const CALLED := VoteRequest(1, 1, 1, 0)

  function Standing(): Node {
    Node(1, [2, 3], 1, Some(1), Candidate(Tally([2, 3, 1], map[1 := true]), []), FreshChain(), [], Running)
  }

  lemma Stands()
    ensures Step(FreshNode(1, [2, 3]), Tick, true).node == Standing()
    ensures Message(Peer(1), Peers, CALLED) in Step(FreshNode(1, [2, 3]), Tick, true).msgs
  {
    var k := ToCandidate(FreshNode(1, [2, 3])).(votedFor := Some(1), term := 1);
    var t := Voted(k.role.tally, 1, true);
    assert t == Tally([2, 3, 1], map[1 := true]);
    assert Granted(t) == {1} && |t.votes| == 1;
    assert Status(t) == Voting;
    assert Step(FreshNode(1, [2, 3]), Tick, true).msgs[0] == Message(Peer(1), Peers, CALLED);
  }

  lemma Backs2()
    ensures Step(FreshNode(2, [1, 3]), CALLED, false) ==
            Out(FreshNode(2, [1, 3]).(votedFor := Some(1)), [Message(Peer(2), Peer(1), VoteResponse(0, 2, true))])
  {
  }

  lemma Wins()
    ensures var n := Step(Standing(), VoteResponse(0, 2, true), false).node;
            n == Standing().(role := Leader(FreshProgress([2, 3, 1])))
  {
    var t := Voted(Standing().role.tally, 2, true);
    assert Granted(t) == {1, 2} && |{1, 2}| == 2;
    GrantedAtMostVotes(t);
    assert Status(t) == Elected;
    assert Voters(Standing()) == [2, 3, 1];
  }

  function TrioStart(): Cluster {
    Cluster(map[1 := FreshNode(1, [2, 3]), 2 := FreshNode(2, [1, 3]), 3 := FreshNode(3, [1, 2])], {}, [])
  }

  lemma TrioStarts()
    ensures Reachable(TrioStart())
  {
    var c := TrioStart();
    assert c.nodes.Keys == {1, 2, 3} && c.nodes != map[] by { assert 1 in c.nodes; }
    assert Enumerates([2, 3], {1, 2, 3} - {1}) && Enumerates([1, 3], {1, 2, 3} - {2}) && Enumerates([1, 2], {1, 2, 3} - {3});
    hide Enumerates;
    assert Init(c);
    assert Run([c]);
  }

  lemma TrioElects() returns (c: Cluster)
    ensures Leading(c, 0, NewProgress()) && c.nodes[3].chain == FreshChain()
  {
    hide Step, Reachable;
    TrioStarts();
    Stands();
    Backs2();
    Wins();
    c := TrioStart();
    c := Ticks(c, 1, true, Step(FreshNode(1, [2, 3]), Tick, true));
    c := Receives(c, 2, Message(Peer(1), Peers, CALLED), Step(FreshNode(2, [1, 3]), CALLED, false));
    c := Receives(c, 1, Message(Peer(2), Peer(1), VoteResponse(0, 2, true)), Step(Standing(), VoteResponse(0, 2, true), false));
    assert c.nodes.Keys == {1, 2, 3};
  }

  /** Appending leaves what is known of the others as it is. */
  lemma AppendKeeps(n: Node, req: ClientRequest, accepted: seq<ClientRequest>)
    requires n.role.Leader? && n.health.Running? && n.id == 1 && n.role.progress.Keys == {1, 2, 3} && NoSnapshot(n.role.progress)
    requires Ledger(n.chain, accepted) && n.chain.idGen == (n.chain.head + 1) % U64 && n.chain.head < U64 - 1
    ensures var m := LeaderRequest(n, req);
            && m.role.Leader? && m.id == n.id && m.peers == n.peers && m.chain.head == n.chain.head + 1
            && m.role.progress.Keys == {1, 2, 3}
            && m.role.progress[2] == n.role.progress[2] && m.role.progress[3] == n.role.progress[3]
  {
    hide Drain, Scan, ScanThrough, QuorumIndex, MajorityReached;
    AppendOk(n.chain, req, accepted);
  }

  lemma AsksOnce(c: Cluster, head: nat, req: ClientRequest) returns (c': Cluster)
    requires Leading(c, head, NewProgress()) && head < 12 && req.address == Client
    ensures Leading(c', head + 1, NewProgress()) && c'.nodes[3] == c.nodes[3]
  {
    hide Reachable, LeaderRequest, Ledger, DataInv, Willing;
    LeaderSound(c, 1);
    AppendKeeps(c.nodes[1], req, c.accepted);
    StepFate(c, 1, Request(req), false);
    c' := Asks(c, 1, req, Step(c.nodes[1], Request(req), false));
    assert c'.nodes.Keys == {1, 2, 3};
  }

  lemma {:induction false} AsksMany(n: nat, req: ClientRequest) returns (c: Cluster)
    requires n <= 12 && req.address == Client
    ensures Leading(c, n, NewProgress()) && c.nodes[3].chain == FreshChain()
    decreases n
  {
    hide Reachable, Willing;
    if n == 0 {
      c := TrioElects();
    } else {
      c := AsksMany(n - 1, req);
      c := AsksOnce(c, n - 1, req);
    }
  }

  // ---- Replication ----

  /** A batch from node 1 with the blocks from `lo` to `hi`. */
  ghost predicate Shipped(c: Cluster, to: NodeId, lo: nat, hi: nat) {
    exists m :: m in c.net && IsBatch(m, to, lo, hi)
  }

  ghost predicate IsBatch(m: Message, to: NodeId, lo: nat, hi: nat) {
    && m.from == Peer(1) && m.to == Peer(to) && m.command.AppendEntries? && m.command.leaderId == 1
    && |m.command.blocks| == hi + 1 - lo
    && forall j :: 0 <= j < |m.command.blocks| ==> m.command.blocks[j].id == lo + j
  }

  lemma {:induction false} BatchSent(n: Node, targets: seq<NodeId>, p: NodeId)
    requires n.role.Leader? && ReplicateTo(n, targets).ok && p in targets && p in n.role.progress
    requires IsActive(n.role.progress[p]) && !n.role.progress[p].Snapshot?
    ensures BatchScan(n.chain, n.role.progress[p]).ok
    ensures Mail(n, Peer(p), AppendEntries(n.term, n.id, Rest(BatchScan(n.chain, n.role.progress[p]).blocks)))
            in ReplicateTo(n, targets).msgs
    decreases targets
  {
    hide BatchScan;
    if targets[0] != p {
      assert p in targets[1..];
      BatchSent(n, targets[1..], p);
    }
  }

  /** A tick that corners nobody ships the next batch to node 2 and the first block to node 3. */
  lemma LeaderShips(c: Cluster, head: nat, p: NodeProgress, elapsed: bool, hi: nat) returns (c': Cluster)
    requires Leading(c, head, p) && 1 <= head && p.head < head
    requires hi == p.head + Min(head - p.head, if p.Probe? then 1 else MAX_INFLIGHT)
    requires p.head > 0 ==> !Cornered(c.nodes[1], 2) && !Cornered(c.nodes[1], 3)
    ensures Leading(c', head, p) && c'.nodes == c.nodes && c.net <= c'.net
    ensures Shipped(c', 2, p.head + 1, hi) && Shipped(c', 3, 1, 1)
    ensures elapsed ==> HeartbeatMail(c.nodes[1]) in c'.net
  {
    hide Reachable, DataInv, Ledger, Willing, ReplicateTo, Cornered, BatchScan, Dense, AllActive, IsActive;
    CommitIs(c, head, p);
    LeaderSound(c, 1);
    StepFate(c, 1, Tick, elapsed);
    var n := c.nodes[1];
    var out := Step(n, Tick, elapsed);
    assert out.node.health.Running?;
    c' := Ticks(c, 1, elapsed, out);
    ShipsTo(c, head, 2, n.role.progress[2], elapsed);
    ShipsTo(c, head, 3, n.role.progress[3], elapsed);
  }

  lemma ShipsTo(c: Cluster, head: nat, to: NodeId, p: NodeProgress, elapsed: bool)
    requires Reachable(c) && IsLeader(c, 1) && c.nodes[1].health.Running? && c.nodes[1].id == 1 && c.nodes[1].chain.head == head
    requires to in c.nodes && to in c.nodes[1].peers && to in c.nodes[1].role.progress && c.nodes[1].role.progress[to] == p
    requires LeaderTick(c.nodes[1], elapsed).node.health.Running?
    ensures exists m :: m in LeaderTick(c.nodes[1], elapsed).msgs
                        && IsBatch(m, to, p.head + 1, p.head + Min(head - p.head, if p.Probe? then 1 else MAX_INFLIGHT))
  {
    hide Reachable, DataInv, Ledger, ReplicateTo, BatchScan, Dense, IsActive, KeyedById;
    LeaderSound(c, 1);
    PeersActive(c, 1, to);
    var n := c.nodes[1];
    BatchSent(n, n.peers, to);
    BatchSize(n.chain, p);
    var m := Mail(n, Peer(to), AppendEntries(n.term, n.id, Rest(BatchScan(n.chain, p).blocks)));
    assert m in LeaderTick(n, elapsed).msgs;
    assert IsBatch(m, to, p.head + 1, p.head + Min(head - p.head, if p.Probe? then 1 else MAX_INFLIGHT));
  }

  // ---- What the followers do ----

  ghost predicate Acked(c: Cluster, id: NodeId, head: nat) {
    exists term: Term, h: BlockId :: h == head && Message(Peer(id), Peer(1), AppendResponse(id, term, h, true)) in c.net
  }

  /** Member `id` stores a batch and acknowledges its last block. */
  lemma FollowerStores(c: Cluster, id: NodeId, lo: nat, hi: nat) returns (c': Cluster)
    requires Reachable(c) && id in c.nodes && id != 1 && Willing(c.nodes[id]) && lo <= hi && Shipped(c, id, lo, hi)
    ensures Reachable(c') && c.net <= c'.net && c'.nodes.Keys == c.nodes.Keys
    ensures forall p :: p in c.nodes && p != id ==> c'.nodes[p] == c.nodes[p]
    ensures Willing(c'.nodes[id]) && c'.nodes[id].chain.commit == c.nodes[id].chain.commit && Acked(c', id, hi)
    ensures forall i: BlockId :: i in c'.nodes[id].chain.blocks ==> i in c.nodes[id].chain.blocks || i <= hi
    ensures forall i: BlockId :: i == hi ==> i in c'.nodes[id].chain.blocks
  {
    hide Reachable, ExtendAll;
    var m :| m in c.net && IsBatch(m, id, lo, hi);
    var n := c.nodes[id];
    var out := Step(n, m.command, false);
    EntriesAccepted(c, m, id);
    ExtendLast(n.chain, m.command.blocks);
    c' := Receives(c, id, m, out);
    var r := ExtendAll(n.chain, m.command.blocks);
    assert out.node.chain == r.chain;
    forall i: BlockId | i in r.chain.blocks ensures i in n.chain.blocks || i <= hi {
      ExtendStores(n.chain, m.command.blocks, i);
    }
    assert out.msgs[0] == Message(Peer(n.id), Peer(1), AppendResponse(n.id, out.node.term, r.chain.head, true));
    MemberId(c, id);
    assert out.msgs[0] in c'.net;
  }

  lemma MemberId(c: Cluster, id: NodeId)
    requires Reachable(c) && id in c.nodes
    ensures c.nodes[id].id == id
  {
    hide Reachable, ElectionInv;
    ReachableInv(c);
    ConfiguredNode(c, id);
  }

  lemma {:induction false} ExtendLast(ch: ChainState, bs: seq<Block>)
    requires bs != [] && ExtendAll(ch, bs).ok
    ensures ExtendAll(ch, bs).chain.head == bs[|bs| - 1].id && bs[|bs| - 1].id in ExtendAll(ch, bs).chain.blocks
    ensures ExtendAll(ch, bs).chain.commit == ch.commit
    decreases bs
  {
    var first := Extend(ch, bs[0]).chain;
    if |bs| > 1 {
      ExtendLast(first, bs[1..]);
    } else {
      assert bs[1..] == [];
    }
  }

  // ---- What the leader makes of it ----

  lemma AckKeeps(n: Node, node: NodeId, head: BlockId)
    requires n.role.Leader? && node in n.role.progress && !n.role.progress[node].Snapshot?
    ensures var m := LeaderAppendResponse(n, node, head);
            && m.role == Leader(AdvanceNode(n.role.progress, Ack(node, head)))
            && m.id == n.id && m.peers == n.peers && m.chain.head == n.chain.head
  {
    hide Drain, Scan, ScanThrough, QuorumIndex, MajorityReached;
  }

  lemma LeaderHears(c: Cluster, head: nat, p: NodeProgress, h: BlockId) returns (c': Cluster)
    requires Leading(c, head, p) && Acked(c, 2, h) && p.head < h && (p.Probe? || p == Replicate([], false, p.head)) && !p.active
    ensures Leading(c', head, Replicate([], false, h)) && c.net <= c'.net
    ensures c'.nodes[3] == c.nodes[3] && c'.nodes[2] == c.nodes[2]
  {
    hide Reachable, DataInv, Ledger, LeaderAppendResponse, Willing, AllActive;
    var term: Term, v: BlockId :| v == h && Message(Peer(2), Peer(1), AppendResponse(2, term, v, true)) in c.net;
    var m := Message(Peer(2), Peer(1), AppendResponse(2, term, v, true));
    LeaderSound(c, 1);
    StepFate(c, 1, m.command, false);
    AckKeeps(c.nodes[1], 2, v);
    c' := Receives(c, 1, m, Step(c.nodes[1], m.command, false));
    assert c'.nodes.Keys == {1, 2, 3};
  }

  lemma StillLeading(c: Cluster, c': Cluster, head: nat, p: NodeProgress)
    requires Leading(c, head, p) && Reachable(c') && c'.nodes.Keys == c.nodes.Keys && c'.nodes[1] == c.nodes[1]
    requires Willing(c'.nodes[2]) && Willing(c'.nodes[3])
    ensures Leading(c', head, p)
  {
  }

  // ---- Heartbeats at node 3 ----

  ghost predicate Beaten(c: Cluster, v: nat) {
    exists m :: m in c.net && IsBeat(m, v)
  }

  ghost predicate IsBeat(m: Message, v: nat) {
    m.from == Peer(1) && m.to == Peers && m.command.Heartbeat? && m.command.leaderId == 1 && m.command.commit == v
  }

  lemma HeartbeatKeeps(n: Node, term: Term, v: BlockId)
    requires n.role.Follower? && KeyedById(n.chain)
    ensures var k := FollowerHeartbeat(n, 1, term, v).node;
            && k.role.Follower? && k.votedFor == Some(1) && k.chain.blocks == n.chain.blocks
            && k.chain.commit == if v in n.chain.blocks && v > n.chain.commit then v else n.chain.commit
    ensures v !in n.chain.blocks ==>
              Mail(n, Peer(1), HeartbeatResponse(n.chain.commit, false)) in FollowerHeartbeat(n, 1, term, v).msgs
  {
    hide Drain, Scan;
  }

  lemma ThirdHears(c: Cluster, v: nat) returns (c': Cluster)
    requires Reachable(c) && c.nodes.Keys == {1, 2, 3} && Willing(c.nodes[3]) && Beaten(c, v)
    ensures Reachable(c') && c.net <= c'.net && c'.nodes.Keys == c.nodes.Keys
    ensures c'.nodes[1] == c.nodes[1] && c'.nodes[2] == c.nodes[2] && Willing(c'.nodes[3])
    ensures c'.nodes[3].chain.blocks == c.nodes[3].chain.blocks
    ensures forall i: BlockId :: i == v && i in c.nodes[3].chain.blocks && i > c.nodes[3].chain.commit ==> c'.nodes[3].chain.commit == i
    ensures (forall i: BlockId :: i == v ==> i !in c.nodes[3].chain.blocks) ==>
              Message(Peer(3), Peer(1), HeartbeatResponse(c.nodes[3].chain.commit, false)) in c'.net
  {
    hide Reachable, FollowerHeartbeat;
    var m :| m in c.net && IsBeat(m, v);
    var n := c.nodes[3];
    StoreKeyed(c, 3);
    HeartbeatKeeps(n, m.command.term, m.command.commit);
    StepFate(c, 3, m.command, false);
    MemberId(c, 3);
    c' := Receives(c, 3, m, Step(n, m.command, false));
  }

  // ---- The execution ----

  lemma NotCornered(c: Cluster, p: NodeProgress)
    requires Leading(c, 12, p) && p.head <= 6
    ensures !Cornered(c.nodes[1], 2) && !Cornered(c.nodes[1], 3)
  {
    hide Reachable;
  }

  lemma Beats(c: Cluster, n: Node)
    requires n.id == 1 && HeartbeatMail(n) in c.net
    ensures Beaten(c, n.chain.commit)
  {
    assert IsBeat(HeartbeatMail(n), n.chain.commit);
  }

  lemma ShippedStays(c: Cluster, c': Cluster, to: NodeId, lo: nat, hi: nat)
    requires Shipped(c, to, lo, hi) && c.net <= c'.net
    ensures Shipped(c', to, lo, hi)
  {
  }

  lemma AckedStays(c: Cluster, c': Cluster, id: NodeId, head: nat)
    requires Acked(c, id, head) && c.net <= c'.net
    ensures Acked(c', id, head)
  {
    var term: Term, h: BlockId :| h == head && Message(Peer(id), Peer(1), AppendResponse(id, term, h, true)) in c.net;
    assert Message(Peer(id), Peer(1), AppendResponse(id, term, h, true)) in c'.net;
  }

  /** Both followers have block 1, and the leader has committed it through node 2. */
  lemma FirstCommit(req: ClientRequest) returns (c: Cluster)
    requires req.address == Client
    ensures Leading(c, 12, Replicate([], false, 1)) && c.nodes[3].chain.commit == 0
    ensures forall i: BlockId :: i in c.nodes[3].chain.blocks ==> i <= 1
    ensures 1 in c.nodes[3].chain.blocks
  {
    hide Shipped, Acked, Willing, Reachable;
    var c0 := AsksMany(12, req);
    var c1 := LeaderShips(c0, 12, NewProgress(), false, 1);
    var c2 := FollowerStores(c1, 2, 1, 1);
    StillLeading(c1, c2, 12, NewProgress());
    ShippedStays(c1, c2, 3, 1, 1);
    var c3 := FollowerStores(c2, 3, 1, 1);
    StillLeading(c2, c3, 12, NewProgress());
    AckedStays(c2, c3, 2, 1);
    c := LeaderHears(c3, 12, NewProgress(), 1);
    var one: BlockId := 1;
    assert one in c.nodes[3].chain.blocks;
  }

  /** The leader beats, node 3 hears it, and what goes to node 2 is acknowledged. */
  lemma Round(c: Cluster, h: BlockId) returns (c': Cluster)
    requires h in {1, 6} && Leading(c, 12, Replicate([], false, h))
    ensures Leading(c', 12, Replicate([], false, h + 5)) && c'.nodes[3].chain.blocks == c.nodes[3].chain.blocks
    ensures h in c.nodes[3].chain.blocks && h > c.nodes[3].chain.commit ==> c'.nodes[3].chain.commit == h
    ensures h !in c.nodes[3].chain.blocks ==>
              Message(Peer(3), Peer(1), HeartbeatResponse(c.nodes[3].chain.commit, false)) in c'.net
  {
    hide Shipped, Acked, Willing, Reachable, Beaten, Cornered;
    var p := Replicate([], false, h);
    NotCornered(c, p);
    CommitIs(c, 12, p);
    var c1 := LeaderShips(c, 12, p, true, h + 5);
    Beats(c1, c.nodes[1]);
    var c2 := ThirdHears(c1, h);
    StillLeading(c1, c2, 12, p);
    ShippedStays(c1, c2, 2, h + 1, h + 5);
    var c3 := FollowerStores(c2, 2, h + 1, h + 5);
    StillLeading(c2, c3, 12, p);
    c' := LeaderHears(c3, 12, p, h + 5);
  }

  lemma AnswerSent(req: ClientRequest) returns (c: Cluster)
    requires req.address == Client
    ensures Leading(c, 12, Replicate([], false, 11))
    ensures Message(Peer(3), Peer(1), HeartbeatResponse(1, false)) in c.net
  {
    hide Leading;
    var c0 := FirstCommit(req);
    LeadingKeys(c0, 12, Replicate([], false, 1));
    var c1 := Round(c0, 1);
    LeadingKeys(c1, 12, Replicate([], false, 6));
    c := Round(c1, 6);
  }

  lemma LeadingKeys(c: Cluster, head: nat, p: NodeProgress)
    requires Leading(c, head, p)
    ensures c.nodes.Keys == {1, 2, 3}
  {
  }

  lemma NowCornered(c: Cluster)
    requires Leading(c, 12, Replicate([], false, 11))
    ensures c.nodes[1].chain.commit > 0 && 2 in c.nodes[1].peers && Cornered(c.nodes[1], 2)
  {
    hide Reachable, Willing, DataInv, Ledger, Dense, KeyedById, AllActive;
    CommitIs(c, 12, Replicate([], false, 11));
    LeaderSound(c, 1);
  }

  /** Three nodes can come to where node 3's answer to a heartbeat stops the leader. */
  lemma AnswerStopsLeader(req: ClientRequest) returns (c: Cluster)
    requires req.address == Client
    ensures Reachable(c) && c.nodes.Keys == {1, 2, 3} && IsLeader(c, 1) && c.nodes[1].health.Running?
    ensures Enabled(c, 1, HeartbeatResponse(1, false))
    ensures Step(c.nodes[1], HeartbeatResponse(1, false), false).node.health == Stopped(ScanHitCommitKey)
  {
    hide Willing, Reachable, Step, Cornered;
    c := AnswerSent(req);
    NowCornered(c);
    assert Deliverable(Message(Peer(3), Peer(1), HeartbeatResponse(1, false)), 1);
    StepFate(c, 1, HeartbeatResponse(1, false), false);
  }
}
