/** What every execution of the cluster guarantees. */
module Theorems {
  import opened RaftTypes
  import opened Chains
  import opened ChainStore
  import opened Elections
  import opened ProgressTracking
  import opened Nodes
  import opened Clusters
  import opened ElectionSafety
  import opened Replication
  import opened ReplicationSteps
  import opened ClusterInvariant
  import opened Monotonicity
  import opened Drivers

  // ---- Elections ----

  /** At most one node is ever leader, whatever the terms. */
  lemma OneLeaderEver(cs: seq<Cluster>, i: nat, j: nat, a: NodeId, b: NodeId)
    requires Run(cs) && i < |cs| && j < |cs| && IsLeader(cs[i], a) && IsLeader(cs[j], b)
    ensures a == b
  {
    hide Run, Inv, ElectionInv, Grows;
    var last := if i < j then j else i;
    RunKeepsInv(cs, last);
    RunGrows(cs, i, last);
    RunGrows(cs, j, last);
    LeadsOn(cs[i], cs[last], a);
    LeadsOn(cs[j], cs[last], b);
    ReachedElection(cs[last]);
    OneLeader(cs[last], a, b);
  }

  lemma LeadsOn(c: Cluster, c': Cluster, a: NodeId)
    requires Grows(c, c') && IsLeader(c, a)
    ensures IsLeader(c', a)
  {
  }

  lemma ReachedElection(c: Cluster)
    requires Inv(c)
    ensures ElectionInv(c)
  {
  }

  /** While a node is a candidate it has voted for itself and neither side of
      its tally has reached the quorum. */
  lemma CandidaciesStayOpen(c: Cluster, id: NodeId)
    requires Reachable(c) && id in c.nodes && c.nodes[id].role.Candidate?
    ensures c.nodes[id].votedFor == Some(id)
    ensures Status(c.nodes[id].role.tally) == Voting
    ensures |Declined(c.nodes[id].role.tally)| < QuorumSize(c.nodes[id].role.tally)
  {
    ReachableInv(c);
    ConfiguredNode(c, id);
  }

  // ---- The leader's chain and the others ----

  /** A state either has no leader and nothing stored, or has one leader whose data invariant holds. */
  lemma Situation(c: Cluster) returns (l: Option<NodeId>)
    requires Reachable(c)
    ensures match l case None => Fresh(c) && Leaderless(c) case Some(x) => DataInv(c, x) && IsLeader(c, x)
  {
    ReachableInv(c);
    if Leaderless(c) {
      l := None;
    } else {
      var x :| x in c.nodes && c.nodes[x].role.Leader?;
      assert IsLeader(c, x);
      l := Some(x);
    }
  }

  lemma FreshReplica()
    ensures Linked(FreshChain().blocks) && GenesisOk(FreshChain().blocks) && Replica(FreshChain(), FreshChain().blocks)
  {
  }

  lemma LedgerReplica(ch: ChainState, accepted: seq<ClientRequest>)
    requires Ledger(ch, accepted)
    ensures Replica(ch, ch.blocks)
  {
  }

  lemma PeerReplica(n: Node, ledger: Blocks, applied: nat)
    requires PeerOk(n, ledger, applied)
    ensures Replica(n.chain, ledger) && HealthOk(n)
  {
  }

  lemma LeaderReplicas(c: Cluster, l: NodeId, p: NodeId)
    requires DataInv(c, l) && p in c.nodes
    ensures Replica(c.nodes[p].chain, c.nodes[l].chain.blocks)
  {
    hide LeaderOk, PeerOk, MailOk, ProgressKnown, Replica;
    LeaderLedger(c, l);
    LedgerReplica(c.nodes[l].chain, c.accepted);
    if p != l {
      PeerReplica(c.nodes[p], c.nodes[l].chain.blocks, |ApplyBlocks(c.nodes[l].log)|);
    }
  }

  lemma LeaderLedger(c: Cluster, l: NodeId)
    requires DataInv(c, l)
    ensures Ledger(c.nodes[l].chain, c.accepted)
    ensures Linked(c.nodes[l].chain.blocks) && GenesisOk(c.nodes[l].chain.blocks)
  {
    hide MailOk, ProgressKnown, MajorityReached, LeaderLog, PeerOk;
    LedgerLinked(c.nodes[l].chain, c.accepted);
  }

  lemma OnlyLeader(c: Cluster, l: NodeId, x: NodeId)
    requires Reachable(c) && IsLeader(c, l) && IsLeader(c, x)
    ensures x == l
  {
    ReachableInv(c);
    hide DataInv, Fresh, Reachable;
    OneLeader(c, x, l);
  }

  /** The blocks of the leader, or genesis alone before there is one. */
  lemma LedgerOf(c: Cluster) returns (ledger: Blocks)
    requires Reachable(c)
    ensures Linked(ledger) && GenesisOk(ledger)
    ensures forall p :: p in c.nodes ==> Replica(c.nodes[p].chain, ledger)
    ensures forall l :: IsLeader(c, l) ==> ledger == c.nodes[l].chain.blocks
  {
    hide Reachable, Replica, Linked, GenesisOk, DataInv;
    var leader := Situation(c);
    match leader {
      case None =>
        ledger := FreshChain().blocks;
        FreshReplica();
      case Some(l) =>
        ledger := c.nodes[l].chain.blocks;
        LeaderLedger(c, l);
        forall p | p in c.nodes ensures Replica(c.nodes[p].chain, ledger) {
          LeaderReplicas(c, l, p);
        }
        forall x | IsLeader(c, x) ensures x == l {
          OnlyLeader(c, l, x);
        }
    }
  }

  /** Two stores that hold the same id hold the same block. */
  lemma StoresAgree(c: Cluster, p: NodeId, q: NodeId, id: BlockId)
    requires Reachable(c) && p in c.nodes && q in c.nodes
    requires id in c.nodes[p].chain.blocks && id in c.nodes[q].chain.blocks
    ensures c.nodes[p].chain.blocks[id] == c.nodes[q].chain.blocks[id]
  {
    var ledger := LedgerOf(c);
    hide Reachable;
    assert Replica(c.nodes[p].chain, ledger) && Replica(c.nodes[q].chain, ledger);
  }

  lemma StateReachable(cs: seq<Cluster>, i: nat)
    requires Run(cs) && i < |cs|
    ensures Reachable(cs[i])
  {
    var front := cs[..i + 1];
    assert Run(front) by {
      forall k | 0 <= k < |front| - 1 ensures Follows(front[k], front[k + 1]) {
        assert Follows(cs[k], cs[k + 1]);
      }
    }
  }

  /** A block, once stored anywhere, is what every store ever holds under its id. */
  lemma BlocksNeverChange(cs: seq<Cluster>, i: nat, j: nat, p: NodeId, q: NodeId, id: BlockId)
    requires Run(cs) && i <= j < |cs| && p in cs[i].nodes && q in cs[j].nodes
    requires id in cs[i].nodes[p].chain.blocks && id in cs[j].nodes[q].chain.blocks
    ensures p in cs[j].nodes && id in cs[j].nodes[p].chain.blocks
    ensures cs[i].nodes[p].chain.blocks[id] == cs[j].nodes[q].chain.blocks[id]
  {
    RunGrows(cs, i, j);
    StateReachable(cs, j);
    hide Run, Reachable;
    assert Extends(cs[i].nodes[p].chain.blocks, cs[j].nodes[p].chain.blocks);
    StoresAgree(cs[j], p, q, id);
  }

  /** The ids met by following parents. */
  function Walk(blocks: Blocks, id: BlockId): seq<BlockId>
    decreases id
  {
    [id] + if id in blocks && blocks[id].next < id then Walk(blocks, blocks[id].next) else []
  }

  lemma {:induction false} WalkDown(ch: ChainState, ledger: Blocks, id: BlockId)
    requires Replica(ch, ledger) && Linked(ledger) && GenesisOk(ledger) && id in ch.blocks
    ensures |Walk(ch.blocks, id)| == id + 1
    ensures forall j :: 0 <= j <= id ==> Walk(ch.blocks, id)[j] == id - j
    decreases id
  {
    assert Extends(ch.blocks, ledger);
    if id > 0 {
      WalkDown(ch, ledger, id - 1);
    }
  }

  lemma {:induction false} Largest(s: set<BlockId>) returns (top: BlockId)
    requires s != {}
    ensures top in s && forall x :: x in s ==> x <= top
    decreases s
  {
    var one :| one in s;
    assert s == s - {one} + {one};
    if s == {one} {
      top := one;
    } else {
      assert s - {one} != {};
      var rest := Largest(s - {one});
      top := if one < rest then rest else one;
    }
  }

  /** Every store holds the ids from 0 to some id without a gap; every block
      names the id before it; from head, commit or any other stored id the
      parents lead down to genesis one by one; no leader commits past its head. */
  lemma StoresGapless(c: Cluster, p: NodeId, id: BlockId)
    requires Reachable(c) && p in c.nodes
    requires id in c.nodes[p].chain.blocks || id == c.nodes[p].chain.head || id == c.nodes[p].chain.commit
    ensures exists top :: Dense(c.nodes[p].chain, top)
    ensures id in c.nodes[p].chain.blocks && c.nodes[p].chain.blocks[id].id == id
    ensures c.nodes[p].chain.blocks[id].next == if id == 0 then 0 else id - 1
    ensures |Walk(c.nodes[p].chain.blocks, id)| == id + 1
    ensures forall j :: 0 <= j <= id ==> Walk(c.nodes[p].chain.blocks, id)[j] == id - j
    ensures c.nodes[p].role.Leader? ==> c.nodes[p].chain.commit <= c.nodes[p].chain.head
  {
    hide Reachable;
    var ledger := LedgerOf(c);
    LeaderCommitBounded(c, p);
    ReplicaShape(c.nodes[p].chain, ledger, id);
    WalkDown(c.nodes[p].chain, ledger, id);
  }

  lemma ReplicaShape(ch: ChainState, ledger: Blocks, id: BlockId)
    requires Replica(ch, ledger) && Linked(ledger) && GenesisOk(ledger)
    requires id in ch.blocks || id == ch.head || id == ch.commit
    ensures exists top :: Dense(ch, top)
    ensures id in ch.blocks && ch.blocks[id].id == id && ch.blocks[id].next == if id == 0 then 0 else id - 1
  {
    var top := Largest(ch.blocks.Keys);
    assert Dense(ch, top);
    assert Extends(ch.blocks, ledger);
  }

  /** Compacting a store of a running cluster removes nothing. */
  lemma CompactIdle(c: Cluster, p: NodeId)
    requires Reachable(c) && p in c.nodes
    ensures Compacted(c.nodes[p].chain) == c.nodes[p].chain.blocks
  {
    hide Reachable, Compacted;
    StoresGapless(c, p, c.nodes[p].chain.head);
    var top :| Dense(c.nodes[p].chain, top);
    forall i | i in c.nodes[p].chain.blocks && i > 0 ensures c.nodes[p].chain.blocks[i].next == i - 1 {
      StoresGapless(c, p, i);
    }
    CompactKeepsGapless(c.nodes[p].chain, top);
  }

  lemma LeaderCommitBounded(c: Cluster, p: NodeId)
    requires Reachable(c) && p in c.nodes
    ensures c.nodes[p].role.Leader? ==> c.nodes[p].chain.commit <= c.nodes[p].chain.head
  {
    ReachableInv(c);
    assert c.nodes[p].role.Leader? ==> IsLeader(c, p);
  }

  // ---- Batches ----

  lemma SentBatch(c: Cluster, l: NodeId, m: Message, p: NodeId)
    requires DataInv(c, l) && m in c.net && m.command.AppendEntries? && Deliverable(m, p)
    ensures p in c.nodes && BatchOk(m.command.blocks, c.nodes[p].chain.blocks, c.nodes[l].chain.blocks)
  {
    hide LeaderOk, PeerOk, ProgressKnown, BatchOk;
    assert MailOk(c, l, m);
  }

  /** Every batch a leader ever sent is accepted whole by the store of its
      addressee, whenever and however often it arrives, and rewrites nothing. */
  lemma EntriesAccepted(c: Cluster, m: Message, p: NodeId)
    requires Reachable(c) && m in c.net && m.command.AppendEntries? && p in c.nodes && Deliverable(m, p)
    ensures var r := ExtendAll(c.nodes[p].chain, m.command.blocks);
            r.ok && Extends(c.nodes[p].chain.blocks, r.chain.blocks)
  {
    hide Reachable, DataInv, Replica, Linked, BatchOk, ExtendAll;
    var leader := Situation(c);
    var ledger := LedgerOf(c);
    match leader {
      case None => assert false;
      case Some(l) =>
        SentBatch(c, l, m, p);
        ExtendBatch(c.nodes[p].chain, m.command.blocks, ledger);
    }
  }

  lemma {:induction false} ReplicateSizes(n: Node, targets: seq<NodeId>, m: Message)
    requires n.role.Leader? && KeyedById(n.chain) && Dense(n.chain, n.chain.head)
    requires forall p :: p in n.role.progress ==> n.role.progress[p].head <= n.chain.head
    requires m in ReplicateTo(n, targets).msgs
    ensures m.command.AppendEntries? && m.to.Peer? && m.to.id in n.role.progress
    ensures var p := n.role.progress[m.to.id];
            |m.command.blocks| == Min(n.chain.head - p.head, if p.Probe? then 1 else MAX_INFLIGHT)
    decreases targets
  {
    hide BatchScan, Dense;
    var p := targets[0];
    if p !in n.role.progress || !IsActive(n.role.progress[p]) || n.role.progress[p].Snapshot? {
      ReplicateSizes(n, targets[1..], m);
    } else {
      BatchSize(n.chain, n.role.progress[p]);
      if m in ReplicateTo(n, targets[1..]).msgs {
        ReplicateSizes(n, targets[1..], m);
      }
    }
  }

  /** Replication offers each member the blocks that follow the head it has
      acknowledged: exactly the next one, or the next MAX_INFLIGHT, or all there are. */
  lemma ReplicationSendsNext(c: Cluster, l: NodeId, m: Message)
    requires Reachable(c) && IsLeader(c, l) && m in LeaderReplicate(c.nodes[l]).msgs
    ensures m.command.AppendEntries? && m.command.leaderId == l
    ensures m.to.Peer? && m.to.id in c.nodes && m.to.id != l && m.to.id in c.nodes[l].role.progress
    ensures var p := c.nodes[l].role.progress[m.to.id];
            && p.head in c.nodes[m.to.id].chain.blocks
            && |m.command.blocks| == Min(c.nodes[l].chain.head - p.head, if p.Probe? then 1 else MAX_INFLIGHT)
            && RunOf(c.nodes[l].chain.blocks, m.command.blocks, p.head + 1)
  {
    hide Reachable, DataInv, ReplicateTo, ElectionInv;
    LeaderData(c, l);
    ReachableInv(c);
    ConfiguredNode(c, l);
    LeaderLedger(c, l);
    LeaderMajority(c, l);
    ProgressBounded(c, l);
    LedgerLinked(c.nodes[l].chain, c.accepted);
    hide Inv, Ledger, Linked, MajorityReached;
    ReplicateOk(c.nodes[l], c.nodes[l].peers, m);
    ReplicateSizes(c.nodes[l], c.nodes[l].peers, m);
    assert m.to.id in c.nodes.Keys - {l};
  }

  // ---- Durability ----

  /** A store that holds every block from genesis to `v`, with the ledger's contents. */
  ghost predicate HoldsThrough(stored: Blocks, ledger: Blocks, v: BlockId) {
    forall i: BlockId :: i <= v ==> i in stored && i in ledger && stored[i] == ledger[i]
  }

  lemma ReplicaHolds(ch: ChainState, ledger: Blocks, v: BlockId, head: BlockId)
    requires Replica(ch, ledger) && head in ch.blocks && v <= head
    ensures HoldsThrough(ch.blocks, ledger, v)
  {
  }

  ghost function Holders(c: Cluster, l: NodeId, v: BlockId): set<NodeId>
    requires l in c.nodes
  {
    set p | p in c.nodes && HoldsThrough(c.nodes[p].chain.blocks, c.nodes[l].chain.blocks, v)
  }

  /** More than half of the members store everything the leader has committed,
      block for block. */
  lemma CommitDurable(c: Cluster, l: NodeId)
    requires Reachable(c) && IsLeader(c, l)
    ensures 2 * |Holders(c, l, c.nodes[l].chain.commit)| > |c.nodes|
  {
    hide Reachable, DataInv, HoldsThrough, Replica;
    LeaderData(c, l);
    LeaderMajority(c, l);
    var n := c.nodes[l];
    var heads := Heads(n.role.progress);
    forall p | p in Reached(heads, n.chain.commit)
      ensures p in Holders(c, l, n.chain.commit)
    {
      LeaderReplicas(c, l, p);
      ReplicaHolds(c.nodes[p].chain, n.chain.blocks, n.chain.commit, heads[p]);
    }
    SubsetSize(Reached(heads, n.chain.commit), Holders(c, l, n.chain.commit));
    assert heads.Keys == c.nodes.Keys;
    assert |heads| == |heads.Keys| == |c.nodes|;
  }

  lemma LeaderMajority(c: Cluster, l: NodeId)
    requires DataInv(c, l) && IsLeader(c, l)
    ensures c.nodes[l].role.progress.Keys == c.nodes.Keys
    ensures MajorityReached(Heads(c.nodes[l].role.progress), c.nodes[l].chain.commit) && ProgressKnown(c, l)
  {
    hide PeerOk, MailOk, LeaderLog, Ledger;
  }

  lemma LeaderData(c: Cluster, l: NodeId)
    requires Reachable(c) && IsLeader(c, l)
    ensures DataInv(c, l)
  {
    ReachableInv(c);
  }

  /** Commit pointers, logs and the history of accepted requests only move
      forward, and what was stored stays stored. */
  lemma NothingIsLost(cs: seq<Cluster>, i: nat, j: nat, p: NodeId)
    requires Run(cs) && i <= j < |cs| && p in cs[i].nodes
    ensures p in cs[j].nodes
    ensures cs[i].nodes[p].chain.commit <= cs[j].nodes[p].chain.commit
    ensures cs[i].nodes[p].log <= cs[j].nodes[p].log
    ensures cs[i].accepted <= cs[j].accepted
    ensures Extends(cs[i].nodes[p].chain.blocks, cs[j].nodes[p].chain.blocks)
  {
    RunGrows(cs, i, j);
  }

  // ---- The replicated state machine ----

  function Proposals(reqs: seq<ClientRequest>): seq<Bytes> {
    seq(|reqs|, i requires 0 <= i < |reqs| => reqs[i].proposal)
  }

  /** Blocks 1, 2, ... of the chain that the accepted requests form. */
  ghost predicate FollowsHistory(bs: seq<Block>, accepted: seq<ClientRequest>) {
    && |bs| <= |accepted|
    && forall j :: 0 <= j < |bs| ==> bs[j].id == j + 1 && bs[j].next == j && bs[j].data == accepted[j].proposal
  }

  lemma RunExecuted(log: seq<Instruction>, ch: ChainState, accepted: seq<ClientRequest>, lo: nat)
    requires Ledger(ch, accepted) && lo <= 1 && RunOf(ch.blocks, ApplyBlocks(log), lo)
    ensures FollowsHistory(Executed(log), accepted)
    ensures |Executed(log)| == if lo == 0 && |ApplyBlocks(log)| > 0 then |ApplyBlocks(log)| - 1 else |ApplyBlocks(log)|
  {
    ExecutedOfRun(log, lo);
    var bs := Executed(log);
    forall j | 0 <= j < |bs|
      ensures j < |accepted| && bs[j].id == j + 1 && bs[j].next == j && bs[j].data == accepted[j].proposal
    {
      assert Stored(ch.blocks, ApplyBlocks(log)[j + 1 - lo]);
    }
    assert |bs| > 0 ==> bs[|bs| - 1].id == |bs|;
  }

  lemma HistoryInputs(log: seq<Instruction>, accepted: seq<ClientRequest>)
    requires FollowsHistory(Executed(log), accepted)
    ensures Inputs(log) <= Proposals(accepted) && |Inputs(log)| == |Executed(log)|
  {
    InputsOfExecuted(log);
  }

  lemma LeaderInputs(c: Cluster, l: NodeId)
    requires DataInv(c, l)
    ensures FollowsHistory(Executed(c.nodes[l].log), c.accepted) && |Executed(c.nodes[l].log)| == |Inputs(c.nodes[l].log)|
    ensures Inputs(c.nodes[l].log) <= Proposals(c.accepted)
    ensures |Inputs(c.nodes[l].log)| == |ApplyBlocks(c.nodes[l].log)| <= c.nodes[l].chain.commit
    ensures c.nodes[l].health.Running? ==> |Inputs(c.nodes[l].log)| == c.nodes[l].chain.commit
  {
    hide MailOk, ProgressKnown, PeerOk, MajorityReached;
    RunExecuted(c.nodes[l].log, c.nodes[l].chain, c.accepted, 1);
    HistoryInputs(c.nodes[l].log, c.accepted);
  }

  lemma PeerInputs(c: Cluster, l: NodeId, p: NodeId)
    requires DataInv(c, l) && p in c.nodes && p != l
    ensures FollowsHistory(Executed(c.nodes[p].log), c.accepted) && |Executed(c.nodes[p].log)| == |Inputs(c.nodes[p].log)|
    ensures Inputs(c.nodes[p].log) <= Proposals(c.accepted)
    ensures |Inputs(c.nodes[p].log)| <= |Inputs(c.nodes[l].log)|
    ensures c.nodes[p].health.Running? && c.nodes[p].chain.commit > 0 ==> |Inputs(c.nodes[p].log)| == c.nodes[p].chain.commit - 1
  {
    LeaderInputs(c, l);
    LeaderLedger(c, l);
    hide MailOk, ProgressKnown, LeaderOk, Ledger;
    assert PeerOk(c.nodes[p], c.nodes[l].chain.blocks, |ApplyBlocks(c.nodes[l].log)|);
    RunExecuted(c.nodes[p].log, c.nodes[l].chain, c.accepted, 0);
    HistoryInputs(c.nodes[p].log, c.accepted);
  }

  /** Every driver, however far it has read, has executed the blocks of the
      first so many accepted requests, in order, each once. */
  lemma DriversFollowHistory(c: Cluster, p: NodeId, k: nat)
    requires Reachable(c) && p in c.nodes && k <= |c.nodes[p].log|
    ensures FollowsHistory(Executed(c.nodes[p].log[..k]), c.accepted)
    ensures Inputs(c.nodes[p].log[..k]) <= Proposals(c.accepted)
    ensures |Inputs(c.nodes[p].log[..k])| == |Executed(c.nodes[p].log[..k])|
  {
    hide Reachable, DataInv, Executed, Inputs, Proposals, FollowsHistory;
    var leader := Situation(c);
    match leader {
      case None => NothingExecuted(c.nodes[p].log, c.accepted);
      case Some(l) =>
        if p == l {
          LeaderInputs(c, l);
        } else {
          PeerInputs(c, l, p);
        }
    }
    HistoryPrefix(c.nodes[p].log, k, c.accepted);
    HistoryInputs(c.nodes[p].log[..k], c.accepted);
  }

  lemma NothingExecuted(log: seq<Instruction>, accepted: seq<ClientRequest>)
    requires log == []
    ensures FollowsHistory(Executed(log), accepted)
  {
  }

  lemma HistoryPrefix(log: seq<Instruction>, k: nat, accepted: seq<ClientRequest>)
    requires k <= |log| && FollowsHistory(Executed(log), accepted)
    ensures FollowsHistory(Executed(log[..k]), accepted)
  {
    PrefixParts(log, k);
    hide Executed;
  }

  /** The executed blocks are the leader's own blocks 1, 2, ... */
  lemma ExecutedAreLeaders(c: Cluster, l: NodeId, p: NodeId, k: nat)
    requires Reachable(c) && IsLeader(c, l) && p in c.nodes && k <= |c.nodes[p].log|
    ensures RunOf(c.nodes[l].chain.blocks, Executed(c.nodes[p].log[..k]), 1)
  {
    hide Reachable, DataInv, Executed;
    DriversFollowHistory(c, p, k);
    LeaderData(c, l);
    LeaderLedger(c, l);
  }

  /** State machine safety: what any two drivers have executed, at any points
      of one run, is the same up to the length of the shorter: the same blocks
      with ids 1, 2, ..., each once, and so the same payloads. */
  lemma StateMachineSafety(cs: seq<Cluster>, i: nat, p: NodeId, k: nat, j: nat, q: NodeId, m: nat)
    requires Run(cs) && i < |cs| && j < |cs| && p in cs[i].nodes && q in cs[j].nodes
    requires k <= |cs[i].nodes[p].log| && m <= |cs[j].nodes[q].log|
    ensures var a, b := Executed(cs[i].nodes[p].log[..k]), Executed(cs[j].nodes[q].log[..m]);
            && (a <= b || b <= a)
            && (forall x :: 0 <= x < |a| ==> a[x].id == x + 1 && a[x].next == x)
            && (forall x :: 0 <= x < |b| ==> b[x].id == x + 1 && b[x].next == x)
    ensures var a, b := Inputs(cs[i].nodes[p].log[..k]), Inputs(cs[j].nodes[q].log[..m]);
            a <= b || b <= a
  {
    var last := if i < j then j else i;
    StateReachable(cs, i);
    StateReachable(cs, j);
    DriversFollowHistory(cs[i], p, k);
    DriversFollowHistory(cs[j], q, m);
    RunGrows(cs, i, last);
    RunGrows(cs, j, last);
    hide Run, Reachable, Inputs, Proposals, Executed;
    var x, y := cs[i].nodes[p].log[..k], cs[j].nodes[q].log[..m];
    LogsCompare(x, y, cs[last].accepted, cs[i].accepted, cs[j].accepted);
  }

  lemma LogsCompare(x: seq<Instruction>, y: seq<Instruction>, all: seq<ClientRequest>, a: seq<ClientRequest>, b: seq<ClientRequest>)
    requires a <= all && b <= all && FollowsHistory(Executed(x), a) && FollowsHistory(Executed(y), b)
    ensures |Executed(x)| <= |Executed(y)| ==> Executed(x) <= Executed(y) && Inputs(x) <= Inputs(y)
    ensures |Executed(y)| <= |Executed(x)| ==> Executed(y) <= Executed(x) && Inputs(y) <= Inputs(x)
  {
    InputsOfExecuted(x);
    InputsOfExecuted(y);
    hide Executed, Inputs;
    assert forall j :: 0 <= j < |Executed(x)| && j < |Executed(y)| ==> Executed(x)[j] == Executed(y)[j];
  }

  /** A follower's driver never gets ahead of what the leader's driver is given. */
  lemma FollowersTrail(c: Cluster, l: NodeId, p: NodeId)
    requires Reachable(c) && IsLeader(c, l) && p in c.nodes
    ensures Executed(c.nodes[p].log) <= Executed(c.nodes[l].log)
    ensures Inputs(c.nodes[p].log) <= Inputs(c.nodes[l].log)
    ensures RunOf(c.nodes[l].chain.blocks, Executed(c.nodes[p].log), 1)
  {
    hide Reachable, DataInv, Inputs, Proposals, Executed;
    LeaderData(c, l);
    LeaderInputs(c, l);
    if p != l {
      PeerInputs(c, l, p);
    }
    LogsCompare(c.nodes[p].log, c.nodes[l].log, c.accepted, c.accepted, c.accepted);
    ExecutedAreLeaders(c, l, p, |c.nodes[p].log|);
    assert c.nodes[p].log[..|c.nodes[p].log|] == c.nodes[p].log;
  }

  /** A running leader has handed on exactly the committed blocks, and any other
      running member one block fewer than it has committed. */
  lemma DriverLag(c: Cluster, p: NodeId)
    requires Reachable(c) && p in c.nodes && c.nodes[p].health.Running?
    ensures |Executed(c.nodes[p].log)| ==
            if c.nodes[p].role.Leader? || c.nodes[p].chain.commit == 0 then c.nodes[p].chain.commit else c.nodes[p].chain.commit - 1
  {
    hide Reachable, DataInv, Inputs, Proposals, Executed, FollowsHistory;
    var leader := Situation(c);
    match leader {
      case None => NothingHandedOn(c, p);
      case Some(l) =>
        if p == l {
          LeaderInputs(c, l);
        } else {
          PeerInputs(c, l, p);
          assert c.nodes[p].role.Leader? ==> IsLeader(c, p);
          if c.nodes[p].role.Leader? {
            OnlyLeader(c, l, p);
            assert false;
          }
          PeerUncommitted(c, l, p);
        }
    }
  }

  lemma NothingHandedOn(c: Cluster, p: NodeId)
    requires Fresh(c) && p in c.nodes
    ensures Executed(c.nodes[p].log) == [] && c.nodes[p].chain.commit == 0
  {
  }

  lemma PeerUncommitted(c: Cluster, l: NodeId, p: NodeId)
    requires DataInv(c, l) && p in c.nodes && p != l
    ensures c.nodes[p].chain.commit == 0 ==> Executed(c.nodes[p].log) == []
  {
    LeaderLedger(c, l);
    hide MailOk, ProgressKnown, LeaderOk, Ledger, Executed;
    assert PeerOk(c.nodes[p], c.nodes[l].chain.blocks, |ApplyBlocks(c.nodes[l].log)|);
    RunExecuted(c.nodes[p].log, c.nodes[l].chain, c.accepted, 0);
  }

  /** The machine of every driver is the machine that alone executes the accepted
      requests: replication is invisible. */
  lemma ReplicasAreOneMachine<S>(c: Cluster, p: NodeId, k: nat, step: Machine<S>, start: S)
    requires Reachable(c) && p in c.nodes && k <= |c.nodes[p].log|
    ensures var log := c.nodes[p].log[..k];
            |Inputs(log)| <= |c.accepted|
            && DriveAll(step, start, log).fsm == Replay(step, start, Proposals(c.accepted[..|Inputs(log)|])).0
  {
    hide Reachable;
    DriversFollowHistory(c, p, k);
    var log := c.nodes[p].log[..k];
    DriverReplays(step, start, log);
    assert Proposals(c.accepted[..|Inputs(log)|]) == Inputs(log);
  }

  // ---- Answers to clients ----

  lemma LeaderWellAnnounced(c: Cluster, l: NodeId)
    requires DataInv(c, l)
    ensures WellAnnounced(c.nodes[l].log)
    ensures |Notices(c.nodes[l].log)| == |c.accepted|
    ensures forall j :: 0 <= j < |c.accepted| ==>
                          && Notices(c.nodes[l].log)[j].Notify?
                          && Notices(c.nodes[l].log)[j].id == c.accepted[j].id
                          && Notices(c.nodes[l].log)[j].address == c.accepted[j].address
  {
    hide MailOk, ProgressKnown, PeerOk, MajorityReached, Ledger;
  }

  /** The leader's driver has answered exactly the requests whose blocks it has
      applied: the j-th answer goes to the address of the j-th accepted
      request, under its id, and carries the reply of its own transition after
      all those before it. */
  lemma ClientsAnswered<S>(c: Cluster, l: NodeId, k: nat, step: Machine<S>, start: S)
    requires Reachable(c) && IsLeader(c, l) && k <= |c.nodes[l].log|
    ensures var log := c.nodes[l].log[..k];
            var sent := DriveAll(step, start, log).sent;
            && |sent| == |ApplyBlocks(log)| <= |c.accepted|
            && forall j :: 0 <= j < |sent| ==>
                             sent[j] == Message(Local, c.accepted[j].address,
                                                Response(c.accepted[j].id, Replay(step, start, Proposals(c.accepted)).1[j]))
  {
    hide Reachable, DataInv, Inputs, Proposals, Replay, DriveAll, WellAnnounced;
    LeaderData(c, l);
    LeaderWellAnnounced(c, l);
    DriversFollowHistory(c, l, k);
    PrefixParts(c.nodes[l].log, k);
    WellAnnouncedPrefix(c.nodes[l].log, k);
    AnswersOfHistory(step, start, c.nodes[l].log[..k], c.accepted);
  }

  lemma AnswersOfHistory<S>(step: Machine<S>, start: S, log: seq<Instruction>, accepted: seq<ClientRequest>)
    requires WellAnnounced(log) && Inputs(log) <= Proposals(accepted) && |Notices(log)| <= |accepted|
    requires forall j :: 0 <= j < |Notices(log)| ==>
                           && Notices(log)[j].Notify?
                           && Notices(log)[j].id == accepted[j].id
                           && Notices(log)[j].address == accepted[j].address
    ensures var sent := DriveAll(step, start, log).sent;
            && |sent| == |ApplyBlocks(log)| <= |accepted|
            && forall j :: 0 <= j < |sent| ==>
                             sent[j] == Message(Local, accepted[j].address,
                                                Response(accepted[j].id, Replay(step, start, Proposals(accepted)).1[j]))
  {
    DriverAnswers(step, start, log);
    var n := |Inputs(log)|;
    assert Proposals(accepted)[..n] == Inputs(log);
    ReplayPrefix(step, start, Proposals(accepted), n);
    hide DriveAll, Replay, WellAnnounced, ApplyBlocks, Notices, Inputs;
  }

  /** An answer is given for good: once the leader's driver has sent answer j,
      then and ever after more than half of the members store every block up
      to its own, j + 1, as the leader has it. */
  lemma AnswersAreDurable<S>(cs: seq<Cluster>, i: nat, i': nat, l: NodeId, k: nat, step: Machine<S>, start: S, j: nat)
    requires Run(cs) && i <= i' < |cs| && IsLeader(cs[i], l) && k <= |cs[i].nodes[l].log|
    requires j < |DriveAll(step, start, cs[i].nodes[l].log[..k]).sent|
    ensures j + 1 <= cs[i].nodes[l].chain.commit
    ensures IsLeader(cs[i'], l) && 2 * |Holders(cs[i'], l, j + 1)| > |cs[i'].nodes|
  {
    hide Reachable, DriveAll, Holders, Run, Grows;
    StateReachable(cs, i);
    StateReachable(cs, i');
    AnswerCommitted(cs[i], l, k, step, start);
    RunGrows(cs, i, i');
    LeadsOn(cs[i], cs[i'], l);
    CommitAdvances(cs[i], cs[i'], l);
    CommitDurable(cs[i'], l);
    HoldersShrink(cs[i'], l, j + 1, cs[i'].nodes[l].chain.commit);
  }

  lemma AnswerCommitted<S>(c: Cluster, l: NodeId, k: nat, step: Machine<S>, start: S)
    requires Reachable(c) && IsLeader(c, l) && k <= |c.nodes[l].log|
    ensures |DriveAll(step, start, c.nodes[l].log[..k]).sent| <= c.nodes[l].chain.commit
  {
    hide Reachable, DriveAll, ApplyBlocks, Executed, Inputs, Notices, DataInv, Replay, Proposals, FollowsHistory;
    ClientsAnswered(c, l, k, step, start);
    PrefixParts(c.nodes[l].log, k);
    LeaderData(c, l);
    LeaderInputs(c, l);
  }

  lemma CommitAdvances(c: Cluster, c': Cluster, p: NodeId)
    requires Grows(c, c') && p in c.nodes
    ensures p in c'.nodes && c.nodes[p].chain.commit <= c'.nodes[p].chain.commit
  {
  }

  lemma HoldersShrink(c: Cluster, l: NodeId, v: BlockId, w: BlockId)
    requires l in c.nodes && v <= w
    ensures |Holders(c, l, w)| <= |Holders(c, l, v)|
  {
    SubsetSize(Holders(c, l, w), Holders(c, l, v));
  }

  /** No other driver answers anyone. */
  lemma OnlyLeaderAnswers<S>(c: Cluster, p: NodeId, k: nat, step: Machine<S>, start: S)
    requires Reachable(c) && p in c.nodes && !c.nodes[p].role.Leader? && k <= |c.nodes[p].log|
    ensures DriveAll(step, start, c.nodes[p].log[..k]).sent == []
  {
    var leader := Situation(c);
    hide Reachable, LeaderOk, MailOk, ProgressKnown;
    PrefixParts(c.nodes[p].log, k);
    match leader {
      case None =>
      case Some(l) => assert PeerOk(c.nodes[p], c.nodes[l].chain.blocks, |ApplyBlocks(c.nodes[l].log)|);
    }
    DriverSilent(step, start, c.nodes[p].log[..k]);
  }
}
