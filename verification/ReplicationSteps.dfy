/** What each handler that touches a store, a log or the replication progress
    does, seen from the invariant. */
module ReplicationSteps {
  import opened RaftTypes
  import opened Chains
  import opened ProgressTracking
  import opened Nodes
  import opened Clusters
  import opened Replication

  /** Every block names the one before it. */
  ghost predicate Linked(ledger: Blocks) {
    forall i :: i in ledger && i > 0 ==> ledger[i].id == i && ledger[i].next == i - 1
  }

  // ---- Followers ----

  /** A batch is accepted whole, whenever and however often it arrives, and
      overwrites a stored block only by itself. */
  lemma {:induction false} ExtendBatch(ch: ChainState, bs: seq<Block>, ledger: Blocks)
    requires Replica(ch, ledger) && Linked(ledger) && BatchOk(bs, ch.blocks, ledger)
    ensures var r := ExtendAll(ch, bs);
            && r.ok
            && Replica(r.chain, ledger)
            && Extends(ch.blocks, r.chain.blocks)
            && r.chain.commit == ch.commit && r.chain.commitKey == ch.commitKey && r.chain.idGen == ch.idGen
            && (bs != [] ==> r.chain.head == bs[|bs| - 1].id)
    decreases bs
  {
    if bs != [] {
      var b := bs[0];
      assert Stored(ledger, b);
      var first := Extend(ch, b).chain;
      assert Replica(first, ledger);
      if |bs| > 1 {
        assert bs[1].id == b.id + 1;
        assert RunOf(ledger, bs[1..], b.id + 1);
      }
      ExtendBatch(first, bs[1..], ledger);
    }
  }

  lemma FollowerAppendOk(n: Node, blocks: seq<Block>, leader: NodeId, term: Term, ledger: Blocks, applied: nat)
    requires n.role.Follower? && n.health.Running?
    requires PeerOk(n, ledger, applied) && Linked(ledger) && BatchOk(blocks, n.chain.blocks, ledger)
    ensures var out := FollowerAppendEntries(n, blocks, leader, term);
            && PeerOk(out.node, ledger, applied)
            && Extends(n.chain.blocks, out.node.chain.blocks)
            && forall m :: m in out.msgs ==> PeerMail(n.id, out.node.chain.blocks, m)
  {
    ExtendBatch(n.chain, blocks, ledger);
  }

  lemma ReplicaScan(ch: ChainState, ledger: Blocks, lo: BlockId, hi: BlockId)
    requires Replica(ch, ledger) && Linked(ledger) && GenesisOk(ledger) && lo <= hi && hi in ch.blocks
    ensures var y := Drain(Scan(ch, lo, hi));
            && |y.blocks| <= hi - lo
            && (y.ok ==> |y.blocks| == hi - lo)
            && RunOf(ledger, y.blocks, lo)
  {
    assert KeyedById(ch);
    DrainWhole(ch, lo, hi);
    RunExtends(ch.blocks, ledger, Drain(Scan(ch, lo, hi)).blocks, lo);
  }

  ghost predicate GenesisOk(ledger: Blocks) {
    0 in ledger && ledger[0] == GENESIS
  }

  lemma SamePeerOk(n: Node, k: Node, ledger: Blocks, applied: nat)
    requires PeerOk(n, ledger, applied) && k.chain == n.chain && k.log == n.log
    requires k.health == n.health || k.health == Stopped(Crashed) || k.health == Stopped(ConflictingLeader)
    requires !n.role.Leader?
    ensures PeerOk(k, ledger, applied)
  {
  }

  /** A follower that moves its commit pointer hands on exactly the blocks from
      the old pointer up to, and without, the new one. */
  lemma FollowerCommitOk(n: Node, k: Node, commit: BlockId, ledger: Blocks, applied: nat)
    requires PeerOk(n, ledger, applied) && n.health.Running? && Linked(ledger) && GenesisOk(ledger)
    requires commit in n.chain.blocks && n.chain.commit < commit <= applied
    requires k.chain == Commit(n.chain, commit).chain
    requires var y := Drain(Scan(k.chain, n.chain.commit, commit));
             k.log == n.log + Applies(y.blocks) && k.health == if y.ok then Running else Stopped(ScanHitCommitKey)
    ensures PeerOk(k, ledger, applied)
  {
    assert Replica(k.chain, ledger);
    ReplicaScan(k.chain, ledger, n.chain.commit, commit);
    var y := Drain(Scan(k.chain, n.chain.commit, commit));
    AppliesAppend(n.log, y.blocks);
    RunAppend(ledger, ApplyBlocks(n.log), y.blocks, 0);
  }

  lemma FollowerHeartbeatOk(n: Node, leader: NodeId, term: Term, commit: BlockId, ledger: Blocks, applied: nat)
    requires n.role.Follower? && n.health.Running?
    requires PeerOk(n, ledger, applied) && Linked(ledger) && GenesisOk(ledger) && commit <= applied
    ensures var out := FollowerHeartbeat(n, leader, term, commit);
            && PeerOk(out.node, ledger, applied)
            && out.node.chain.blocks == n.chain.blocks
            && forall m :: m in out.msgs ==> Electioneering(m)
  {
    hide PeerOk, Linked, GenesisOk, Drain, Scan;
    var k := FollowerHeartbeat(n, leader, term, commit).node;
    if commit in n.chain.blocks && commit > n.chain.commit {
      FollowerCommitOk(n, k, commit, ledger, applied);
    } else {
      SamePeerOk(n, k, ledger, applied);
    }
  }

  // ---- The leader ----

  lemma {:induction false} ReplicateOk(n: Node, targets: seq<NodeId>, m: Message)
    requires n.role.Leader? && KeyedById(n.chain) && Dense(n.chain, n.chain.head)
    requires m in ReplicateTo(n, targets).msgs
    ensures m.command.AppendEntries? && m.command.leaderId == n.id
    ensures m.to.Peer? && m.to.id in targets && m.to.id in n.role.progress
    ensures RunOf(n.chain.blocks, m.command.blocks, n.role.progress[m.to.id].head + 1)
    decreases targets
  {
    var p := targets[0];
    if p !in n.role.progress || !IsActive(n.role.progress[p]) || n.role.progress[p].Snapshot? {
      ReplicateOk(n, targets[1..], m);
    } else {
      var head := n.role.progress[p].head;
      var es := Scan(n.chain, head, U64);
      DrainDense(n.chain, n.chain.head, head, U64, Min(|es|, Window(n.role.progress[p])));
      if m in ReplicateTo(n, targets[1..]).msgs {
        ReplicateOk(n, targets[1..], m);
      }
    }
  }

  /** The committed interval goes to the driver without its first block. */
  lemma CommitScan(ch: ChainState, lo: BlockId, hi: BlockId)
    requires KeyedById(ch) && Dense(ch, ch.head) && lo < hi <= ch.head
    ensures var y := Drain(ScanThrough(ch, lo, hi));
            && |Rest(y.blocks)| <= hi - lo
            && (y.ok ==> |Rest(y.blocks)| == hi - lo)
            && RunOf(ch.blocks, Rest(y.blocks), lo + 1)
  {
    DrainThrough(ch, lo, hi);
  }

  lemma QuorumIndexBounded(n: Node, members: set<NodeId>)
    requires n.role.Leader? && Tracks(n.role.progress, members)
    requires forall p :: p in members ==> n.role.progress[p].head <= n.chain.head
    ensures Heads(n.role.progress) != map[]
    ensures QuorumIndex(Heads(n.role.progress)) <= n.chain.head
  {
    var heads := Heads(n.role.progress);
    var one :| one in members;
    assert one in heads;
    var q := QuorumIndex(heads);
    assert MajorityReached(heads, q);
    assert |Reached(heads, q)| > 0;
    assert Reached(heads, q) != {};
    var p :| p in Reached(heads, q);
    assert p in members;
  }

  lemma LeaderCommittedOk(n: Node, k: Node, q: BlockId, accepted: seq<ClientRequest>, members: set<NodeId>)
    requires LeaderOk(n, accepted, members) && n.health.Running?
    requires n.chain.commit < q <= n.chain.head && MajorityReached(Heads(n.role.progress), q)
    requires k.role == n.role && k.id == n.id && k.chain == Commit(n.chain, q).chain
    requires var y := Drain(ScanThrough(k.chain, n.chain.commit, q));
             k.log == n.log + Applies(Rest(y.blocks)) && k.health == if y.ok then Running else Stopped(ScanHitCommitKey)
    ensures LeaderOk(k, accepted, members)
    ensures |ApplyBlocks(n.log)| <= |ApplyBlocks(k.log)|
  {
    hide Drain, ScanThrough, MajorityReached, LeaderLog, Ledger, Dense, KeyedById, RunOf, Tracks, ApplyBlocks, Commit, Rest;
    LedgerCommitted(n.chain, q, accepted);
    CommitScan(k.chain, n.chain.commit, q);
    var y := Drain(ScanThrough(k.chain, n.chain.commit, q));
    CommittedLogOk(n, k, Rest(y.blocks), q, accepted);
  }

  lemma LedgerCommitted(ch: ChainState, q: BlockId, accepted: seq<ClientRequest>)
    requires Ledger(ch, accepted) && 0 < q <= ch.head
    ensures var ch' := Commit(ch, q).chain;
            && Ledger(ch', accepted) && KeyedById(ch') && Dense(ch', ch'.head) && |accepted| == ch.head
            && ch' == ch.(commitKey := Some(q), commit := q)
  {
  }

  lemma CommittedLogOk(n: Node, k: Node, bs: seq<Block>, q: BlockId, accepted: seq<ClientRequest>)
    requires LeaderLog(n, accepted) && n.health.Running? && q <= |accepted|
    requires k.chain.blocks == n.chain.blocks && k.chain.commit == q && n.chain.commit < q && k.log == n.log + Applies(bs)
    requires RunOf(n.chain.blocks, bs, n.chain.commit + 1) && |bs| <= q - n.chain.commit
    requires k.health.Running? ==> |bs| == q - n.chain.commit
    ensures LeaderLog(k, accepted) && |ApplyBlocks(n.log)| <= |ApplyBlocks(k.log)|
  {
    AppliesAppend(n.log, bs);
    RunAppend(k.chain.blocks, ApplyBlocks(n.log), bs, 1);
    hide ApplyBlocks, AnnouncedFirst, Notices;
  }

  lemma LeaderCommitOk(n: Node, accepted: seq<ClientRequest>, members: set<NodeId>)
    requires LeaderOk(n, accepted, members) && n.health.Running?
    requires n.role.Leader? && Tracks(n.role.progress, members) && Dense(n.chain, n.chain.head)
    requires forall p :: p in members ==> n.role.progress[p].head <= n.chain.head
    ensures var n' := LeaderCommit(n);
            && LeaderOk(n', accepted, members)
            && n'.chain.blocks == n.chain.blocks && n'.role == n.role && n'.id == n.id
            && |ApplyBlocks(n.log)| <= |ApplyBlocks(n'.log)|
  {
    hide LeaderOk, Drain, Scan, ScanThrough, ApplyBlocks;
    QuorumIndexBounded(n, members);
    var q := QuorumIndex(Heads(n.role.progress));
    if q > n.chain.commit {
      LeaderCommittedOk(n, LeaderCommit(n), q, accepted, members);
    }
  }

  lemma LeaderAdvancedOk(n: Node, node: NodeId, head: BlockId, accepted: seq<ClientRequest>, members: set<NodeId>)
    requires LeaderOk(n, accepted, members) && node in members
    ensures LeaderOk(n.(role := Leader(AdvanceNode(n.role.progress, Ack(node, head)))), accepted, members)
  {
    AdvanceRaises(n.role.progress, members, Ack(node, head));
  }

  lemma LeaderAckOk(n: Node, node: NodeId, head: BlockId, accepted: seq<ClientRequest>, members: set<NodeId>)
    requires LeaderOk(n, accepted, members) && n.health.Running?
    requires n.role.Leader? && Tracks(n.role.progress, members) && Dense(n.chain, n.chain.head)
    requires node in members && head <= n.chain.head
    requires forall p :: p in members ==> n.role.progress[p].head <= n.chain.head
    ensures var n' := LeaderAppendResponse(n, node, head);
            && LeaderOk(n', accepted, members)
            && n'.chain.blocks == n.chain.blocks && n'.id == n.id
            && n'.role == Leader(AdvanceNode(n.role.progress, Ack(node, head)))
            && |ApplyBlocks(n.log)| <= |ApplyBlocks(n'.log)|
  {
    LeaderAdvancedOk(n, node, head, accepted, members);
    hide LeaderOk, LeaderCommit, ApplyBlocks;
    var m := n.(role := Leader(AdvanceNode(n.role.progress, Ack(node, head))));
    LeaderCommitOk(m, accepted, members);
  }

  /** A new store is the ledger of no requests. */
  lemma FreshLedger()
    ensures Ledger(FreshChain(), []) && FreshChain().idGen == FreshChain().head + 1
  {
  }

  /** Appending extends the ledger by one block; the id assertion fails only
      when all 64-bit ids are used up. */
  lemma AppendOk(ch: ChainState, req: ClientRequest, accepted: seq<ClientRequest>)
    requires Ledger(ch, accepted) && ch.idGen == (ch.head + 1) % U64
    ensures Append(ch, req.proposal).ok <==> ch.head != U64 - 1
    ensures var r := Append(ch, req.proposal);
            if r.ok then
              && Ledger(r.chain, accepted + [req])
              && r.chain.idGen == (r.chain.head + 1) % U64
              && Extends(ch.blocks, r.chain.blocks)
              && r.chain.head == ch.head + 1
            else r.chain == ch.(idGen := r.chain.idGen)
  {
  }

  lemma LeaderNotifiedOk(n: Node, k: Node, req: ClientRequest, accepted: seq<ClientRequest>, members: set<NodeId>)
    requires LeaderOk(n, accepted, members) && n.health.Running?
    requires Ledger(k.chain, accepted + [req]) && k.chain.idGen == (k.chain.head + 1) % U64
    requires Extends(n.chain.blocks, k.chain.blocks) && k.chain.commit == n.chain.commit && k.chain.head == n.chain.head + 1
    requires k.log == n.log + [Notify(req.id, req.address, k.chain.head)]
    requires k.role == n.role && k.id == n.id && k.health.Running?
    ensures LeaderOk(k, accepted + [req], members)
    ensures |ApplyBlocks(k.log)| == |ApplyBlocks(n.log)|
  {
    hide Ledger;
    NotifyAppend(n.log, Notify(req.id, req.address, k.chain.head));
    RunExtends(n.chain.blocks, k.chain.blocks, ApplyBlocks(n.log), 1);
    assert |accepted| == n.chain.head by { LedgerSize(n.chain, accepted); }
  }

  lemma LedgerSize(ch: ChainState, accepted: seq<ClientRequest>)
    requires Ledger(ch, accepted)
    ensures |accepted| == ch.head
  {
  }

  lemma LeaderExhaustedOk(n: Node, k: Node, accepted: seq<ClientRequest>, members: set<NodeId>)
    requires LeaderOk(n, accepted, members) && n.chain.head == U64 - 1
    requires k == Stop(n.(chain := n.chain.(idGen := k.chain.idGen)), IdAssertion)
    ensures LeaderOk(k, accepted, members)
  {
  }

  lemma LeaderRequestOk(n: Node, req: ClientRequest, accepted: seq<ClientRequest>, members: set<NodeId>)
    requires LeaderOk(n, accepted, members) && n.health.Running?
    requires n.role.Leader? && Tracks(n.role.progress, members) && Dense(n.chain, n.chain.head) && n.id in members
    requires forall p :: p in members ==> n.role.progress[p].head <= n.chain.head
    ensures var n' := LeaderRequest(n, req);
            && LeaderOk(n', accepted + Taken(n, Request(req)), members)
            && Extends(n.chain.blocks, n'.chain.blocks) && n'.id == n.id && n'.role.Leader?
            && n'.role.progress.Keys == members
            && (forall p :: p in members && p != n.id ==> n'.role.progress[p] == n.role.progress[p])
            && n'.role.progress[n.id].head in n'.chain.blocks
            && |ApplyBlocks(n.log)| <= |ApplyBlocks(n'.log)|
  {
    hide LeaderAppendResponse, ApplyBlocks, LeaderLog, MajorityReached, HealthOk;
    AppendOk(n.chain, req, accepted);
    hide LeaderOk, Ledger;
    var r := Append(n.chain, req.proposal);
    if r.ok {
      var m := n.(chain := r.chain, log := n.log + [Notify(req.id, req.address, r.chain.head)]);
      LeaderNotifiedOk(n, m, req, accepted, members);
      assert Dense(m.chain, m.chain.head);
      LeaderAckOk(m, n.id, r.chain.head, accepted + [req], members);
    } else {
      LeaderExhaustedOk(n, LeaderRequest(n, req), accepted, members);
      assert accepted + Taken(n, Request(req)) == accepted;
    }
  }
}
