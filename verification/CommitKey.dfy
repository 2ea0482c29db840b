/** The key "commit" lies among the blocks. How far it keeps a cluster from
    committing, and which scans ever meet it. */
module CommitKeys {
  import opened RaftTypes
  import opened BlockKeys
  import opened Chains
  import opened Elections
  import opened ProgressTracking
  import opened Nodes
  import opened Clusters
  import opened ElectionSafety
  import opened Replication
  import opened ReplicationSteps
  import opened ClusterInvariant
  import opened Theorems

  // ---- The key "commit" in a range ----

  /** The key "commit" sorts into the range from `lo` to `hi`. */
  predicate Crosses(lo: BlockId, hi: BlockId) {
    lo < COMMIT_RANK <= hi
  }

  lemma RangeStops(ch: ChainState, lo: BlockId, hi: BlockId)
    requires KeyedById(ch) && ch.commitKey.Some? && hi in ch.blocks && lo < hi
    ensures Drain(Scan(ch, lo, hi)).ok <==> !Crosses(lo, hi)
    ensures Drain(ScanThrough(ch, lo, hi)).ok <==> !Crosses(lo, hi)
  {
    ScanEntries(ch, lo, hi);
    DrainOk(Scan(ch, lo, hi));
    DrainSnoc(Scan(ch, lo, hi), ch.blocks[hi]);
  }

  // ---- A leader's commit ----

  /** The heads after member `node` has acknowledged `head`. */
  ghost function HeadsAfter(p: Progress, node: NodeId, head: BlockId): map<NodeId, BlockId> {
    Heads(p)[node := if node in p && p[node].head > head then p[node].head else head]
  }

  lemma HeadsAdvanced(p: Progress, node: NodeId, head: BlockId)
    requires node in p && !p[node].Snapshot?
    ensures Heads(AdvanceNode(p, Ack(node, head))) == HeadsAfter(p, node, head)
  {
  }

  lemma QuorumReaches(heads: map<NodeId, BlockId>, v: nat)
    requires heads != map[]
    ensures v <= QuorumIndex(heads) <==> MajorityReached(heads, v)
  {
    var q := QuorumIndex(heads);
    if v <= q {
      SubsetSize(Reached(heads, q), Reached(heads, v));
    } else if v >= U64 {
      assert Reached(heads, v) == {};
    }
  }

  lemma LeaderCommitFate(n: Node, members: set<NodeId>)
    requires n.role.Leader? && n.health.Running? && Tracks(n.role.progress, members)
    requires KeyedById(n.chain) && Dense(n.chain, n.chain.head)
    requires forall p :: p in members ==> n.role.progress[p].head <= n.chain.head
    ensures LeaderCommit(n).health ==
            if n.chain.commit < COMMIT_RANK && MajorityReached(Heads(n.role.progress), COMMIT_RANK)
            then Stopped(ScanHitCommitKey) else Running
  {
    hide Drain, Scan, ScanThrough, MajorityReached;
    QuorumIndexBounded(n, members);
    var q := QuorumIndex(Heads(n.role.progress));
    QuorumReaches(Heads(n.role.progress), COMMIT_RANK);
    if q > n.chain.commit {
      RangeStops(Commit(n.chain, q).chain, n.chain.commit, q);
    }
  }

  lemma AckFate(n: Node, members: set<NodeId>, node: NodeId, head: BlockId)
    requires n.role.Leader? && n.health.Running? && Tracks(n.role.progress, members) && node in members
    requires KeyedById(n.chain) && Dense(n.chain, n.chain.head) && head <= n.chain.head
    requires forall p :: p in members ==> n.role.progress[p].head <= n.chain.head
    ensures LeaderAppendResponse(n, node, head).health ==
            if n.chain.commit < COMMIT_RANK && MajorityReached(HeadsAfter(n.role.progress, node, head), COMMIT_RANK)
            then Stopped(ScanHitCommitKey) else Running
  {
    hide LeaderCommit, MajorityReached;
    HeadsAdvanced(n.role.progress, node, head);
    LeaderCommitFate(n.(role := Leader(AdvanceNode(n.role.progress, Ack(node, head)))), members);
  }

  /** Taking a request fails on the id assertion exactly when the last 64-bit id is in use. */
  lemma RequestFate(n: Node, members: set<NodeId>, req: ClientRequest, accepted: seq<ClientRequest>)
    requires n.role.Leader? && n.health.Running? && Tracks(n.role.progress, members) && n.id in members
    requires Ledger(n.chain, accepted) && n.chain.idGen == (n.chain.head + 1) % U64
    requires forall p :: p in members ==> n.role.progress[p].head <= n.chain.head
    ensures LeaderRequest(n, req).health ==
            if n.chain.head == U64 - 1 then Stopped(IdAssertion)
            else if n.chain.commit < COMMIT_RANK
                    && MajorityReached(HeadsAfter(n.role.progress, n.id, n.chain.head + 1), COMMIT_RANK)
            then Stopped(ScanHitCommitKey) else Running
  {
    hide LeaderAppendResponse, MajorityReached;
    AppendOk(n.chain, req, accepted);
    var r := Append(n.chain, req.proposal);
    if r.ok {
      var m := n.(chain := r.chain, log := n.log + [Notify(req.id, req.address, r.chain.head)]);
      LedgerLinked(m.chain, accepted + [req]);
      AckFate(m, members, n.id, r.chain.head);
    }
  }

  // ---- Reachable nodes ----

  /** What the invariant says of a reachable leader. */
  lemma LeaderSound(c: Cluster, l: NodeId)
    requires Reachable(c) && IsLeader(c, l)
    ensures var n := c.nodes[l];
            && n.id == l && DataInv(c, l) && Tracks(n.role.progress, c.nodes.Keys) && Ledger(n.chain, c.accepted)
            && KeyedById(n.chain) && Dense(n.chain, n.chain.head) && (n.chain.commitKey.Some? <==> n.chain.commit > 0)
            && (n.health.Running? ==> n.chain.idGen == (n.chain.head + 1) % U64)
            && AllActive(n.role.progress)
            && forall p :: p in n.role.progress ==> n.role.progress[p].head <= n.chain.head
  {
    LeaderData(c, l);
    LeaderLedger(c, l);
    LeaderMajority(c, l);
    ProgressBounded(c, l);
    LedgerLinked(c.nodes[l].chain, c.accepted);
    LeaderGenerator(c, l);
    ReachableInv(c);
    hide DataInv, Reachable, Inv;
    LeaderId(c, l);
    LeaderTracks(c, l);
  }

  lemma LeaderGenerator(c: Cluster, l: NodeId)
    requires DataInv(c, l)
    ensures c.nodes[l].health.Running? ==> c.nodes[l].chain.idGen == (c.nodes[l].chain.head + 1) % U64
  {
    hide PeerOk, MailOk, ProgressKnown, Ledger, LeaderLog;
  }

  lemma LeaderTracks(c: Cluster, l: NodeId)
    requires DataInv(c, l)
    ensures IsLeader(c, l) && Tracks(c.nodes[l].role.progress, c.nodes.Keys) && AllActive(c.nodes[l].role.progress)
  {
    hide PeerOk, MailOk, ProgressKnown, Ledger, LeaderLog;
  }

  lemma LeaderId(c: Cluster, l: NodeId)
    requires Inv(c) && l in c.nodes
    ensures c.nodes[l].id == l
  {
    hide DataInv, Fresh;
    ConfiguredNode(c, l);
  }

  lemma StoreKeyed(c: Cluster, p: NodeId)
    requires Reachable(c) && p in c.nodes
    ensures KeyedById(c.nodes[p].chain)
  {
    hide Reachable;
    forall id | id in c.nodes[p].chain.blocks ensures c.nodes[p].chain.blocks[id].id == id {
      StoresGapless(c, p, id);
    }
  }

  lemma PeerSound(c: Cluster, p: NodeId)
    requires Inv(c) && p in c.nodes
    ensures CandidateOk(c.nodes[p])
  {
    hide DataInv, Fresh;
    ConfiguredNode(c, p);
  }

  lemma HeartbeatFate(n: Node, leader: NodeId, term: Term, commit: BlockId)
    requires n.role.Follower? && n.health.Running? && KeyedById(n.chain)
    ensures FollowerHeartbeat(n, leader, term, commit).node.health ==
            if commit in n.chain.blocks && Crosses(n.chain.commit, commit) then Stopped(ScanHitCommitKey) else Running
  {
    hide Drain, Scan, ScanThrough;
    if commit in n.chain.blocks && commit > n.chain.commit {
      RangeStops(Commit(n.chain, commit).chain, n.chain.commit, commit);
    }
  }

  // ---- The leader knows itself ----

  /** A running leader has acknowledged its own head, and has committed whatever a majority has reached. */
  ghost predicate Settled(n: Node)
    requires n.role.Leader?
  {
    n.health.Running? ==>
      && n.id in n.role.progress && n.role.progress[n.id].head == n.chain.head
      && !MajorityReached(Heads(n.role.progress), n.chain.commit + 1)
  }

  lemma CommitSettles(n: Node, members: set<NodeId>)
    requires n.role.Leader? && Tracks(n.role.progress, members) && n.id in members
    requires n.role.progress[n.id].head == n.chain.head
    ensures LeaderCommit(n).role == n.role && LeaderCommit(n).id == n.id && LeaderCommit(n).peers == n.peers
    ensures n.chain.commit <= LeaderCommit(n).chain.commit
    ensures Settled(LeaderCommit(n))
  {
    hide Drain, Scan, ScanThrough, MajorityReached;
    var heads := Heads(n.role.progress);
    assert n.id in heads;
    QuorumReaches(heads, LeaderCommit(n).chain.commit + 1);
  }

  /** What handling a command may do to the leader's part in this argument. */
  ghost predicate Rises(n: Node, n': Node) {
    && n.role.Leader? && n'.role.Leader? && n'.id == n.id && Settled(n')
    && n.chain.commit <= n'.chain.commit && (n'.health.Running? ==> n.health.Running?)
    && forall p :: p in n.role.progress ==> p in n'.role.progress && n.role.progress[p].head <= n'.role.progress[p].head
  }

  lemma AckRises(n: Node, members: set<NodeId>, node: NodeId, head: BlockId)
    requires n.role.Leader? && n.health.Running? && Tracks(n.role.progress, members) && n.id in members
    requires node in members && head <= n.chain.head
    requires n.role.progress[n.id].head == n.chain.head || (node == n.id && head == n.chain.head && n.role.progress[n.id].head <= head)
    ensures Rises(n, LeaderAppendResponse(n, node, head))
  {
    hide LeaderCommit, MajorityReached, Settled;
    CommitSettles(n.(role := Leader(AdvanceNode(n.role.progress, Ack(node, head)))), members);
  }

  lemma RequestRises(n: Node, members: set<NodeId>, req: ClientRequest)
    requires n.role.Leader? && n.health.Running? && Tracks(n.role.progress, members) && n.id in members
    requires n.role.progress[n.id].head == n.chain.head
    ensures Rises(n, LeaderRequest(n, req))
  {
    hide LeaderAppendResponse, MajorityReached;
    var r := Append(n.chain, req.proposal);
    if r.ok {
      AckRises(n.(chain := r.chain, log := n.log + [Notify(req.id, req.address, r.chain.head)]), members, n.id, r.chain.head);
    }
  }

  // ---- Members past the key ----

  ghost predicate Reaching(bs: seq<Block>) {
    exists b :: b in bs && b.id >= COMMIT_RANK
  }

  /** A batch that reaches past the key has been sent to `p`. */
  ghost predicate Offered(net: set<Message>, p: NodeId) {
    exists m :: m in net && m.command.AppendEntries? && m.to == Peer(p) && Reaching(m.command.blocks)
  }

  /** The members that may have blocks past the key, now or later. */
  ghost function Exposed(c: Cluster, l: NodeId): set<NodeId> {
    set p | p in c.nodes && (p == l || COMMIT_RANK in c.nodes[p].chain.blocks || Offered(c.net, p))
  }

  /** At most half of the members get past the key: those the leader offers such
      blocks before anything is committed have acknowledged something, and once
      something is committed the leader's scans no longer pass the key. */
  ghost predicate KeyOk(c: Cluster, l: NodeId)
    requires IsLeader(c, l)
  {
    && Settled(c.nodes[l])
    && (|c.nodes| >= 2 ==> 2 * |Exposed(c, l)| <= |c.nodes|)
    && (c.nodes[l].health.Running? && c.nodes[l].chain.commit == 0 ==>
          forall p :: p in Exposed(c, l) && p != l ==> p in c.nodes[l].role.progress && c.nodes[l].role.progress[p].head > 0)
  }

  lemma ExposedShrinks(c: Cluster, c': Cluster, l: NodeId)
    requires IsLeader(c, l) && IsLeader(c', l) && KeyOk(c, l) && c'.nodes.Keys == c.nodes.Keys
    requires Exposed(c', l) <= Exposed(c, l) && Rises(c.nodes[l], c'.nodes[l])
    ensures KeyOk(c', l)
  {
    hide Exposed, Settled;
    SubsetSize(Exposed(c', l), Exposed(c, l));
    assert |c'.nodes| == |c'.nodes.Keys| == |c.nodes.Keys| == |c.nodes|;
  }

  /** Nothing is offered that was not offered before. */
  lemma SameOffers(c: Cluster, id: NodeId, out: Out, taken: seq<ClientRequest>, l: NodeId)
    requires id in c.nodes && l in c.nodes && forall m :: m in out.msgs ==> !m.command.AppendEntries?
    requires id == l || (COMMIT_RANK in out.node.chain.blocks ==> id in Exposed(c, l))
    ensures Exposed(After(c, id, out, taken), l) <= Exposed(c, l)
  {
    var c' := After(c, id, out, taken);
    forall p | p in Exposed(c', l) ensures p in Exposed(c, l) {
      assert Offered(c'.net, p) ==> Offered(c.net, p);
    }
  }

  // ---- Steps of the other members ----

  lemma {:induction false} ExtendStores(ch: ChainState, bs: seq<Block>, i: BlockId)
    requires i in ExtendAll(ch, bs).chain.blocks
    ensures i in ch.blocks || exists b :: b in bs && b.id == i
    decreases bs
  {
    if bs != [] && Extend(ch, bs[0]).ok {
      ExtendStores(Extend(ch, bs[0]).chain, bs[1..], i);
      if b :| b in bs[1..] && b.id == i {
        assert b in bs;
      } else {
        assert bs[0] in bs;
      }
    }
  }

  lemma PeerStores(n: Node, command: Command, elapsed: bool, i: BlockId)
    requires !n.role.Leader? && CandidateOk(n) && i in Step(n, command, elapsed).node.chain.blocks
    ensures i in n.chain.blocks || (command.AppendEntries? && exists b :: b in command.blocks && b.id == i)
  {
    if n.role.Follower? && command.AppendEntries? {
      if i !in n.chain.blocks {
        ExtendStores(n.chain, command.blocks, i);
      }
    } else if n.role.Follower? && command.Heartbeat? {
      hide Drain, Scan;
    } else {
      hide Step;
      PeerIdle(n, command, elapsed);
    }
  }

  lemma PeerKeepsKey(c: Cluster, l: NodeId, id: NodeId, out: Out)
    requires IsLeader(c, l) && KeyOk(c, l) && id in c.nodes && id != l
    requires forall m :: m in out.msgs ==> !m.command.AppendEntries?
    requires COMMIT_RANK in out.node.chain.blocks ==> id in Exposed(c, l)
    ensures KeyOk(After(c, id, out, []), l)
  {
    hide KeyOk, Exposed;
    SameOffers(c, id, out, [], l);
    SameLeader(c, After(c, id, out, []), l);
  }

  lemma SameLeader(c: Cluster, c': Cluster, l: NodeId)
    requires IsLeader(c, l) && KeyOk(c, l) && c'.nodes.Keys == c.nodes.Keys && c'.nodes[l] == c.nodes[l]
    requires Exposed(c', l) <= Exposed(c, l)
    ensures KeyOk(c', l)
  {
    hide Exposed;
    ExposedShrinks(c, c', l);
  }

  /** A member that stores the key's place has been offered it before. */
  lemma PeerExposed(c: Cluster, l: NodeId, id: NodeId, command: Command, elapsed: bool)
    requires DataInv(c, l) && id in c.nodes && id != l && Enabled(c, id, command)
    requires CandidateOk(c.nodes[id]) && !c.nodes[id].role.Leader?
    requires COMMIT_RANK in Step(c.nodes[id], command, elapsed).node.chain.blocks
    ensures id in Exposed(c, l)
  {
    hide Step, PeerOk, LeaderOk, ProgressKnown, BatchOk;
    PeerStores(c.nodes[id], command, elapsed, COMMIT_RANK);
    if COMMIT_RANK !in c.nodes[id].chain.blocks {
      var m :| m in c.net && m.command == command && Deliverable(m, id);
      assert MailOk(c, l, m);
      assert Reaching(m.command.blocks);
      assert Offered(c.net, id);
    }
  }

  // ---- Steps of the leader ----

  /** Every batch comes from an iterator that did not fail. */
  lemma {:induction false} BatchesSucceed(n: Node, targets: seq<NodeId>, m: Message)
    requires n.role.Leader? && m in ReplicateTo(n, targets).msgs
    ensures m.to.Peer? && m.to.id in n.role.progress && BatchScan(n.chain, n.role.progress[m.to.id]).ok
    decreases targets
  {
    hide BatchScan;
    var p := targets[0];
    if p !in n.role.progress || !IsActive(n.role.progress[p]) || n.role.progress[p].Snapshot? {
      BatchesSucceed(n, targets[1..], m);
    } else if m in ReplicateTo(n, targets[1..]).msgs {
      BatchesSucceed(n, targets[1..], m);
    }
  }

  /** A batch that reaches past the key goes to a member close to it, and, once
      something is committed, to one that is past it already. */
  lemma ReachingBatch(c: Cluster, l: NodeId, m: Message)
    requires Reachable(c) && IsLeader(c, l) && m in LeaderReplicate(c.nodes[l]).msgs
    requires m.command.AppendEntries? && Reaching(m.command.blocks)
    ensures m.to.Peer? && m.to.id in c.nodes && m.to.id in c.nodes[l].role.progress
    ensures c.nodes[l].role.progress[m.to.id].head > 0
    ensures c.nodes[l].chain.commit > 0 ==> COMMIT_RANK in c.nodes[m.to.id].chain.blocks
    ensures c.nodes[l].chain.head > 0
  {
    hide Reachable, DataInv, ReplicateTo, Ledger, BatchScan, Dense;
    LeaderSound(c, l);
    ReplicationSendsNext(c, l, m);
    var n := c.nodes[l];
    BatchesSucceed(n, n.peers, m);
    var p := n.role.progress[m.to.id];
    BatchStops(n.chain, p);
    var b :| b in m.command.blocks && b.id >= COMMIT_RANK;
    var j :| 0 <= j < |m.command.blocks| && m.command.blocks[j] == b;
    assert b.id == p.head + 1 + j;
    if n.chain.commit > 0 {
      StoresDown(c, m.to.id, p.head, COMMIT_RANK);
    }
  }

  /** What is stored above an id is stored with it. */
  lemma StoresDown(c: Cluster, p: NodeId, i: BlockId, v: BlockId)
    requires Reachable(c) && p in c.nodes && i in c.nodes[p].chain.blocks
    ensures v <= i ==> v in c.nodes[p].chain.blocks
  {
    hide Reachable;
    StoresGapless(c, p, i);
    var top :| Dense(c.nodes[p].chain, top);
  }

  lemma NewlyExposed(c: Cluster, l: NodeId, out: Out, p: NodeId)
    requires Reachable(c) && IsLeader(c, l)
    requires out.node.role.Leader?
    requires forall m :: m in out.msgs ==> m in LeaderReplicate(c.nodes[l]).msgs || !m.command.AppendEntries?
    requires p in Exposed(After(c, l, out, []), l) && p !in Exposed(c, l)
    ensures c.nodes[l].chain.commit == 0 && c.nodes[l].chain.head > 0
    ensures p in c.nodes[l].role.progress && c.nodes[l].role.progress[p].head > 0
  {
    hide Reachable, LeaderReplicate, Reaching;
    var c' := After(c, l, out, []);
    var m :| m in c'.net && m.command.AppendEntries? && m.to == Peer(p) && Reaching(m.command.blocks);
    assert m !in c.net;
    ReachingBatch(c, l, m);
  }

  lemma ReplicatingKeepsKey(c: Cluster, l: NodeId, out: Out)
    requires Reachable(c) && IsLeader(c, l) && KeyOk(c, l) && c.nodes[l].health.Running?
    requires out.node == c.nodes[l] || out.node == Stop(c.nodes[l], ScanHitCommitKey)
    requires forall m :: m in out.msgs ==> m in LeaderReplicate(c.nodes[l]).msgs || !m.command.AppendEntries?
    ensures KeyOk(After(c, l, out, []), l)
  {
    hide Reachable, LeaderReplicate, MajorityReached, Exposed, DataInv, Ledger;
    LeaderSound(c, l);
    var c' := After(c, l, out, []);
    var n := c.nodes[l];
    forall p | p in Exposed(c', l) && p !in Exposed(c, l)
      ensures n.chain.commit == 0 && n.chain.head > 0 && p in n.role.progress && n.role.progress[p].head > 0
    {
      NewlyExposed(c, l, out, p);
    }
    assert |c'.nodes| == |c'.nodes.Keys| == |c.nodes.Keys| == |c.nodes|;
    if Exposed(c', l) <= Exposed(c, l) {
      SubsetSize(Exposed(c', l), Exposed(c, l));
    } else {
      var p :| p in Exposed(c', l) && p !in Exposed(c, l);
      assert n.chain.commit == 0 && n.chain.head > 0;
      FewAcknowledged(c, l, Exposed(c', l));
    }
  }

  /** Before anything is committed at most half of the members have acknowledged anything. */
  lemma FewAcknowledged(c: Cluster, l: NodeId, s: set<NodeId>)
    requires IsLeader(c, l) && Settled(c.nodes[l]) && c.nodes[l].health.Running? && c.nodes[l].chain.commit == 0
    requires c.nodes[l].id == l && c.nodes[l].chain.head > 0 && c.nodes[l].role.progress.Keys == c.nodes.Keys
    requires forall p :: p in s && p != l ==> p in c.nodes[l].role.progress && c.nodes[l].role.progress[p].head > 0
    ensures 2 * |s| <= |c.nodes|
  {
    var heads := Heads(c.nodes[l].role.progress);
    assert s <= Reached(heads, 1);
    SubsetSize(s, Reached(heads, 1));
    assert heads.Keys == c.nodes.Keys;
    assert |heads| == |heads.Keys| == |c.nodes.Keys| == |c.nodes|;
  }

  lemma QuietKeepsKey(c: Cluster, l: NodeId, out: Out, taken: seq<ClientRequest>)
    requires IsLeader(c, l) && KeyOk(c, l) && Rises(c.nodes[l], out.node)
    requires forall m :: m in out.msgs ==> !m.command.AppendEntries?
    ensures KeyOk(After(c, l, out, taken), l)
  {
    hide KeyOk, Exposed, Rises;
    RisesLeads(c.nodes[l], out.node);
    SameOffers(c, l, out, taken, l);
    ExposedShrinks(c, After(c, l, out, taken), l);
  }

  lemma RisesLeads(n: Node, n': Node)
    requires Rises(n, n')
    ensures n'.role.Leader?
  {
  }

  lemma StillRises(n: Node, n': Node)
    requires n.role.Leader? && Settled(n)
    requires n' == n || (n'.health.Stopped? && n' == n.(health := n'.health))
    ensures Rises(n, n')
  {
  }

  lemma LeaderKeepsKey(c: Cluster, l: NodeId, command: Command, elapsed: bool)
    requires Reachable(c) && IsLeader(c, l) && KeyOk(c, l) && c.nodes[l].health.Running? && Enabled(c, l, command)
    requires Step(c.nodes[l], command, elapsed).node.role.Leader?
    ensures KeyOk(After(c, l, Step(c.nodes[l], command, elapsed), Taken(c.nodes[l], command)), l)
  {
    hide Reachable, DataInv, Ledger, LeaderReplicate, LeaderRequest, LeaderAppendResponse, Exposed, MajorityReached, Rises, Tracks;
    LeaderSound(c, l);
    var n := c.nodes[l];
    var out := Step(n, command, elapsed);
    TracksKeys(n.role.progress, c.nodes.Keys);
    match command {
      case Tick =>
        ReplicateOutcome(n);
        ReplicatingKeepsKey(c, l, out);
      case HeartbeatResponse(_, _) =>
        ReplicateOutcome(n);
        ReplicatingKeepsKey(c, l, out);
      case AppendResponse(node, _, head, _) =>
        DeliveredAck(c, l, l, command);
        StoredBelowHead(c, l, node, head);
        AckRises(n, c.nodes.Keys, node, head);
        QuietKeepsKey(c, l, out, []);
      case Request(req) =>
        RequestRises(n, c.nodes.Keys, req);
        QuietKeepsKey(c, l, out, Taken(n, command));
      case AppendEntries(_, _, _) =>
        DeliveredEntries(c, l, l, command);
        assert false;
      case _ =>
        StillRises(n, n);
        QuietKeepsKey(c, l, out, []);
    }
  }

  lemma TracksKeys(p: Progress, members: set<NodeId>)
    requires Tracks(p, members)
    ensures p.Keys == members
  {
  }

  lemma ReplicateOutcome(n: Node)
    requires n.role.Leader?
    ensures LeaderReplicate(n).node == n || LeaderReplicate(n).node == Stop(n, ScanHitCommitKey)
  {
  }

  // ---- Every event ----

  ghost predicate KeyInv(c: Cluster) {
    forall l :: IsLeader(c, l) ==> KeyOk(c, l)
  }

  lemma FreshSettled(n: Node)
    requires n.role.Leader? && n.chain == FreshChain() && n.role.progress == FreshProgress(Voters(n))
    ensures Settled(n)
  {
    assert Reached(Heads(n.role.progress), n.chain.commit + 1) == {};
    assert n.id in Voters(n);
  }

  lemma FirstKeepsKey(c: Cluster, id: NodeId, out: Out)
    requires Fresh(c) && id in c.nodes && Idle(c.nodes[id], out) && out.node.role.Leader? && out.node.peers == c.nodes[id].peers
    ensures KeyOk(After(c, id, out, []), id)
  {
    hide FreshProgress, Voters;
    var c' := After(c, id, out, []);
    assert Voters(out.node) == Voters(c.nodes[id]) by { SameVoters(c.nodes[id], out.node); }
    FreshSettled(out.node);
    hide Settled;
    assert Exposed(c', id) == {id} by {
      forall p | p in c'.nodes ensures COMMIT_RANK !in c'.nodes[p].chain.blocks && !Offered(c'.net, p) {
      }
    }
  }

  lemma SameVoters(n: Node, k: Node)
    requires n.id == k.id && n.peers == k.peers
    ensures Voters(n) == Voters(k)
  {
  }

  lemma LeaderEventKey(c: Cluster, l: NodeId, e: Event, out: Out)
    requires Reachable(c) && IsLeader(c, l) && KeyOk(c, l) && e.node == l && (e.Report? || c.nodes[l].health.Running?)
    requires Enabled(c, l, Cause(e)) && out == Effect(c, e) && out.node.role.Leader?
    ensures KeyOk(After(c, l, out, Gains(c, e)), l)
  {
    hide Reachable, Step, Taken, Exposed, MajorityReached, Rises, Enabled;
    match e {
      case Handle(_, command, elapsed) => LeaderKeepsKey(c, l, command, elapsed);
      case Crash(_) =>
        StillRises(c.nodes[l], Stop(c.nodes[l], Crashed));
        QuietKeepsKey(c, l, out, []);
      case Report(_, _, _, _) =>
        StillRises(c.nodes[l], c.nodes[l]);
        QuietKeepsKey(c, l, out, []);
    }
  }

  lemma PeerEventQuiet(c: Cluster, l: NodeId, e: Event)
    requires DataInv(c, l) && e.node in c.nodes && e.node != l && (e.Report? || c.nodes[e.node].health.Running?)
    requires Enabled(c, e.node, Cause(e)) && CandidateOk(c.nodes[e.node])
    requires !c.nodes[e.node].role.Leader? && !Effect(c, e).node.role.Leader?
    ensures forall m :: m in Effect(c, e).msgs ==> !m.command.AppendEntries?
    ensures COMMIT_RANK in Effect(c, e).node.chain.blocks ==> e.node in Exposed(c, l)
  {
    hide DataInv, Step, Enabled, CandidateOk, PeerOk, Extends;
    match e {
      case Handle(id, command, elapsed) =>
        PeerMoves(c, l, id, command, elapsed);
        if COMMIT_RANK in Step(c.nodes[id], command, elapsed).node.chain.blocks {
          PeerExposed(c, l, id, command, elapsed);
        }
      case Crash(_) =>
      case Report(_, _, _, _) =>
    }
  }

  lemma FirstEventKey(c: Cluster, e: Event, out: Out)
    requires Fresh(c) && Leaderless(c) && ElectionInv(c) && e.node in c.nodes && Enabled(c, e.node, Cause(e))
    requires out == Effect(c, e) && out.node.role.Leader?
    ensures Gains(c, e) == [] && KeyOk(After(c, e.node, out, []), e.node)
  {
    hide ElectionInv, Step, Idle, KeyOk;
    ConfiguredNode(c, e.node);
    FreshCommands(c, e.node, e.command);
    PeerIdle(c.nodes[e.node], e.command, e.elapsed);
    EffectElectoral(c, e);
    FirstKeepsKey(c, e.node, out);
  }

  lemma NextKeepsKey(c: Cluster, e: Event, c': Cluster)
    requires Reachable(c) && KeyInv(c) && Next(c, e, c')
    ensures KeyInv(c')
  {
    hide ElectionInv, DataInv, Fresh, Step, Reachable, KeyOk, CandidateOk, Electoral, Enabled;
    ReachableInv(c);
    NextKeepsElectionInv(c, e, c');
    NextIsAfter(c, e, c');
    ConfiguredNode(c, e.node);
    EffectElectoral(c, e);
    RolesAfter(c, e);
    var out := Effect(c, e);
    if Leaderless(c) {
      assert forall p :: !IsLeader(c, p);
      assert forall p :: IsLeader(c', p) ==> p == e.node;
      if out.node.role.Leader? {
        FirstEventKey(c, e, out);
      }
    } else {
      var l :| l in c.nodes && c.nodes[l].role.Leader?;
      OldLeaderKey(c, e, c', l);
    }
  }

  lemma OldLeaderKey(c: Cluster, e: Event, c': Cluster, l: NodeId)
    requires Reachable(c) && IsLeader(c, l) && DataInv(c, l) && KeyOk(c, l) && Next(c, e, c')
    requires c' == After(c, e.node, Effect(c, e), Gains(c, e)) && Enabled(c, e.node, Cause(e))
    requires ElectionInv(c) && ElectionInv(c') && CandidateOk(c.nodes[e.node])
    requires c.nodes[e.node].role.Leader? ==> Effect(c, e).node.role.Leader?
    ensures KeyInv(c')
  {
    hide ElectionInv, DataInv, Step, Reachable, KeyOk, CandidateOk, Enabled, Taken;
    var out := Effect(c, e);
    assert IsLeader(c', l);
    forall p | IsLeader(c', p) ensures p == l {
      OneLeader(c', p, l);
    }
    if e.node == l {
      LeaderEventKey(c, l, e, out);
    } else {
      assert !IsLeader(c', e.node);
      NoGains(c, e);
      PeerEventQuiet(c, l, e);
      PeerKeepsKey(c, l, e.node, out);
    }
  }

  lemma NoGains(c: Cluster, e: Event)
    requires e.node in c.nodes && !c.nodes[e.node].role.Leader?
    ensures Gains(c, e) == []
  {
  }

  lemma {:induction false} RunKeepsKey(cs: seq<Cluster>, i: nat)
    requires Run(cs) && i < |cs|
    ensures KeyInv(cs[i])
    decreases i
  {
    hide Reachable, KeyOk, Next;
    if i > 0 {
      RunKeepsKey(cs, i - 1);
      assert Follows(cs[i - 1], cs[i - 1 + 1]);
      var e :| Next(cs[i - 1], e, cs[i]);
      StateReachable(cs, i - 1);
      NextKeepsKey(cs[i - 1], e, cs[i]);
    }
  }

  lemma ReachableKey(c: Cluster, l: NodeId)
    requires Reachable(c) && IsLeader(c, l)
    ensures KeyOk(c, l)
  {
    hide KeyOk;
    var cs :| Run(cs) && cs[|cs| - 1] == c;
    RunKeepsKey(cs, |cs| - 1);
  }

  // ---- What follows ----

  /** Heads past the key's place are those of exposed members. */
  lemma NoMajorityPastKey(c: Cluster, l: NodeId, heads: map<NodeId, BlockId>)
    requires IsLeader(c, l) && KeyOk(c, l) && |c.nodes| >= 2 && heads.Keys == c.nodes.Keys
    requires forall p :: p in heads && p != l && heads[p] >= COMMIT_RANK ==> COMMIT_RANK in c.nodes[p].chain.blocks
    ensures !MajorityReached(heads, COMMIT_RANK)
  {
    hide Settled, Offered;
    assert Reached(heads, COMMIT_RANK) <= Exposed(c, l);
    SubsetSize(Reached(heads, COMMIT_RANK), Exposed(c, l));
    assert |heads| == |heads.Keys| == |c.nodes.Keys| == |c.nodes|;
  }

  lemma HeadStored(c: Cluster, l: NodeId, x: NodeId)
    requires Reachable(c) && IsLeader(c, l) && x in c.nodes
    ensures c.nodes[l].role.progress.Keys == c.nodes.Keys
    ensures c.nodes[l].role.progress[x].head >= COMMIT_RANK ==> COMMIT_RANK in c.nodes[x].chain.blocks
  {
    hide Reachable, DataInv, MajorityReached;
    LeaderData(c, l);
    LeaderMajority(c, l);
    StoresDown(c, x, c.nodes[l].role.progress[x].head, COMMIT_RANK);
  }

  /** The heads the leader knows, with one more acknowledged, lie below the key for half of the members. */
  lemma HeadsBelowKey(c: Cluster, l: NodeId, node: NodeId, head: BlockId)
    requires Reachable(c) && IsLeader(c, l) && |c.nodes| >= 2 && node in c.nodes
    requires node == l || head in c.nodes[node].chain.blocks
    ensures !MajorityReached(HeadsAfter(c.nodes[l].role.progress, node, head), COMMIT_RANK)
    ensures !MajorityReached(Heads(c.nodes[l].role.progress), COMMIT_RANK)
  {
    hide Reachable, KeyOk, MajorityReached;
    var p := c.nodes[l].role.progress;
    HeadStored(c, l, l);
    forall x | x in c.nodes ensures p[x].head >= COMMIT_RANK ==> COMMIT_RANK in c.nodes[x].chain.blocks {
      HeadStored(c, l, x);
    }
    if node != l {
      StoresDown(c, node, head, COMMIT_RANK);
    }
    ReachableKey(c, l);
    NoMajorityPastKey(c, l, HeadsAfter(p, node, head));
    NoMajorityPastKey(c, l, Heads(p));
  }

  /** No member of a cluster of two or more ever commits a block past the key. */
  lemma CommitsStayBelowKey(c: Cluster, p: NodeId)
    requires Reachable(c) && p in c.nodes && |c.nodes| >= 2
    ensures c.nodes[p].chain.commit < COMMIT_RANK
  {
    hide Reachable, DataInv, MajorityReached, Fresh;
    var leader := Situation(c);
    match leader {
      case None => FreshCommit(c, p);
      case Some(l) =>
        HeadsBelowKey(c, l, l, 0);
        LeaderMajority(c, l);
        var heads := Heads(c.nodes[l].role.progress);
        if c.nodes[l].chain.commit >= COMMIT_RANK {
          MajorityBelow(heads, c.nodes[l].chain.commit, COMMIT_RANK);
          assert false;
        }
        CommitWithin(c, l, p);
    }
  }

  lemma MajorityBelow(heads: map<NodeId, BlockId>, v: nat, w: nat)
    requires MajorityReached(heads, v) && w <= v
    ensures MajorityReached(heads, w)
  {
    SubsetSize(Reached(heads, v), Reached(heads, w));
  }

  lemma FreshCommit(c: Cluster, p: NodeId)
    requires Fresh(c) && p in c.nodes
    ensures c.nodes[p].chain.commit == 0
  {
  }

  lemma CommitWithin(c: Cluster, l: NodeId, p: NodeId)
    requires DataInv(c, l) && p in c.nodes
    ensures c.nodes[p].chain.commit <= c.nodes[l].chain.commit
  {
    hide MailOk, ProgressKnown, Ledger, Replica, FollowerLog, MajorityReached;
    assert p != l ==> PeerOk(c.nodes[p], c.nodes[l].chain.blocks, |ApplyBlocks(c.nodes[l].log)|);
  }

  /** A running leader without peers has committed its head. */
  lemma AloneCommitsHead(c: Cluster, l: NodeId)
    requires Reachable(c) && IsLeader(c, l) && |c.nodes| == 1 && c.nodes[l].health.Running?
    ensures c.nodes.Keys == {l} && c.nodes[l].chain.commit == c.nodes[l].chain.head
    ensures c.nodes[l].role.progress.Keys == {l} && c.nodes[l].role.progress[l].head == c.nodes[l].chain.head
  {
    hide Reachable, DataInv, Exposed;
    LeaderSound(c, l);
    ReachableKey(c, l);
    OnlyMember(c.nodes.Keys, l);
    var n := c.nodes[l];
    AloneReached(Heads(n.role.progress), l, n.chain.commit + 1);
  }

  lemma AloneReached(heads: map<NodeId, BlockId>, l: NodeId, v: nat)
    requires heads.Keys == {l}
    ensures MajorityReached(heads, v) <==> v <= heads[l]
  {
    assert |heads| == |heads.Keys| == 1;
    assert Reached(heads, v) == if v <= heads[l] then {l} else {};
  }

  lemma OnlyMember(s: set<NodeId>, x: NodeId)
    requires |s| == 1 && x in s
    ensures s == {x}
  {
    SubsetSize({x}, s);
  }
}
