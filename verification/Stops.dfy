/** Exactly when a node stops, and on what. */
module Stops {
  import opened RaftTypes
  import opened BlockKeys
  import opened Chains
  import opened Elections
  import opened ProgressTracking
  import opened Nodes
  import opened Clusters
  import opened ElectionSafety
  import opened Replication
  import opened ClusterInvariant
  import opened CommitKeys
  import opened Theorems

  // ---- Replication ----

  /** The iterator over what member `p` lacks runs into the key "commit": fewer
      blocks lie before it than the iterator asks for. */
  ghost predicate Cornered(n: Node, p: NodeId)
    requires n.role.Leader?
  {
    && p in n.role.progress
    && Meets(n.chain, n.role.progress[p].head, if n.role.progress[p].Probe? then 2 else MAX_INFLIGHT + 1)
  }

  lemma {:induction false} ReplicateStopsIff(n: Node, targets: seq<NodeId>)
    requires n.role.Leader? && KeyedById(n.chain) && Dense(n.chain, n.chain.head)
    requires AllActive(n.role.progress) && NoSnapshot(n.role.progress)
    requires forall p :: p in n.role.progress ==> n.role.progress[p].head <= n.chain.head
    ensures !ReplicateTo(n, targets).ok <==> exists p :: p in targets && Cornered(n, p)
    decreases targets
  {
    if targets != [] {
      var p := targets[0];
      assert targets == [p] + targets[1..];
      ReplicateStopsIff(n, targets[1..]);
      if p in n.role.progress {
        BatchStops(n.chain, n.role.progress[p]);
      }
      hide BatchScan, Dense;
      assert (exists q :: q in targets && Cornered(n, q)) <==>
             Cornered(n, p) || exists q :: q in targets[1..] && Cornered(n, q);
    }
  }

  lemma ReplicateFate(c: Cluster, l: NodeId, elapsed: bool)
    requires Reachable(c) && IsLeader(c, l) && c.nodes[l].health.Running?
    ensures var stuck := c.nodes[l].chain.commit > 0 && exists p :: p in c.nodes[l].peers && Cornered(c.nodes[l], p);
            && LeaderReplicate(c.nodes[l]).node.health == (if stuck then Stopped(ScanHitCommitKey) else Running)
            && LeaderTick(c.nodes[l], elapsed).node.health == (if stuck then Stopped(ScanHitCommitKey) else Running)
  {
    hide Reachable, DataInv, ReplicateTo;
    LeaderSound(c, l);
    ReplicateStopsIff(c.nodes[l], c.nodes[l].peers);
  }

  /** Replication passes over nobody. */
  lemma PeersActive(c: Cluster, l: NodeId, p: NodeId)
    requires Reachable(c) && IsLeader(c, l) && p in c.nodes
    ensures p in c.nodes[l].role.progress
    ensures IsActive(c.nodes[l].role.progress[p]) && !c.nodes[l].role.progress[p].Snapshot?
  {
    hide Reachable, DataInv, Ledger, IsActive;
    LeaderSound(c, l);
  }

  /** A tick stops the leader exactly when something is committed and some peer
      is so close to the head that its batch is not full. */
  lemma TickStopsLeader(c: Cluster, l: NodeId, elapsed: bool)
    requires Reachable(c) && IsLeader(c, l) && c.nodes[l].health.Running?
    ensures Step(c.nodes[l], Tick, elapsed).node.health.Stopped? <==>
            c.nodes[l].chain.commit > 0 && exists p :: p in c.nodes[l].peers && Cornered(c.nodes[l], p)
  {
    hide Reachable, LeaderTick, Cornered;
    ReplicateFate(c, l, elapsed);
  }

  /** A request hits the id assertion exactly when the last 64-bit id is in use. */
  lemma RequestExhausts(c: Cluster, l: NodeId, req: ClientRequest, elapsed: bool)
    requires Reachable(c) && IsLeader(c, l) && c.nodes[l].health.Running?
    ensures Step(c.nodes[l], Request(req), elapsed).node.health == Stopped(IdAssertion) <==>
            c.nodes[l].chain.head == U64 - 1
  {
    hide Reachable, LeaderRequest, DataInv, Ledger;
    LeaderSound(c, l);
    RequestFate(c.nodes[l], c.nodes.Keys, req, c.accepted);
  }

  // ---- Every command ----

  /** What becomes of a running node that is given a command. */
  ghost function Fate(n: Node, command: Command): Health {
    if n.role.Leader? then
      match command
      case Tick => if n.chain.commit > 0 && exists p :: p in n.peers && Cornered(n, p) then Stopped(ScanHitCommitKey) else Running
      case HeartbeatResponse(commit, has) =>
        if !has && commit > 0 && n.chain.commit > 0 && exists p :: p in n.peers && Cornered(n, p) then Stopped(ScanHitCommitKey)
        else Running
      case Request(_) =>
        if n.chain.head == U64 - 1 then Stopped(IdAssertion)
        else if n.peers == [] && n.chain.head == COMMIT_RANK - 1 then Stopped(ScanHitCommitKey)
        else Running
      case _ => Running
    else if n.role.Follower? && command.AppendEntries?
            && n.votedFor.Some? && n.votedFor.value != command.leaderId && command.term < n.term
    then Stopped(ConflictingLeader)
    else Running
  }

  /** An acknowledgement never makes the leader's commit range meet the key. */
  lemma AckRuns(c: Cluster, l: NodeId, node: NodeId, head: BlockId)
    requires Reachable(c) && IsLeader(c, l) && c.nodes[l].health.Running?
    requires node in c.nodes && head in c.nodes[node].chain.blocks
    ensures LeaderAppendResponse(c.nodes[l], node, head).health.Running?
  {
    hide Reachable, DataInv, Ledger, MajorityReached, LeaderAppendResponse, AllActive, Dense, KeyedById;
    LeaderSound(c, l);
    StoredBelowHead(c, l, node, head);
    var n := c.nodes[l];
    AckFate(n, c.nodes.Keys, node, head);
    if |c.nodes| >= 2 {
      HeadsBelowKey(c, l, node, head);
    } else {
      OneOrMore(c, l);
      AloneCommitsHead(c, l);
      AloneReached(HeadsAfter(n.role.progress, node, head), l, COMMIT_RANK);
    }
  }

  lemma OneOrMore(c: Cluster, l: NodeId)
    requires l in c.nodes && |c.nodes| < 2
    ensures |c.nodes| == 1
  {
    assert |c.nodes| == |c.nodes.Keys|;
  }

  lemma Peerless(c: Cluster, l: NodeId)
    requires Configured(c) && l in c.nodes
    ensures c.nodes[l].peers == [] <==> |c.nodes| == 1
  {
    EnumerationLength(c.nodes[l].peers, c.nodes.Keys - {l});
    assert |c.nodes| == |c.nodes.Keys| == |c.nodes.Keys - {l}| + 1;
  }

  /** A request meets the key only at a leader without peers. */
  lemma RequestRuns(c: Cluster, l: NodeId, req: ClientRequest)
    requires Reachable(c) && IsLeader(c, l) && c.nodes[l].health.Running? && Configured(c)
    ensures LeaderRequest(c.nodes[l], req).health == Fate(c.nodes[l], Request(req))
  {
    hide Reachable, DataInv, Ledger, MajorityReached, LeaderRequest, AllActive, Dense, KeyedById, Configured;
    LeaderSound(c, l);
    Peerless(c, l);
    var n := c.nodes[l];
    RequestFate(n, c.nodes.Keys, req, c.accepted);
    if n.chain.head < U64 - 1 {
      if |c.nodes| >= 2 {
        HeadsBelowKey(c, l, l, n.chain.head + 1);
      } else {
        OneOrMore(c, l);
        AloneCommitsHead(c, l);
        AloneReached(HeadsAfter(n.role.progress, l, n.chain.head + 1), l, COMMIT_RANK);
      }
    }
  }

  lemma LeaderFate(c: Cluster, l: NodeId, command: Command, elapsed: bool)
    requires Reachable(c) && IsLeader(c, l) && c.nodes[l].health.Running? && Enabled(c, l, command)
    ensures Step(c.nodes[l], command, elapsed).node.health == Fate(c.nodes[l], command)
  {
    hide Reachable, DataInv, LeaderReplicate, LeaderTick, LeaderRequest, LeaderAppendResponse, Cornered, ElectionInv, Configured;
    match command {
      case Tick => ReplicateFate(c, l, elapsed);
      case HeartbeatResponse(_, _) => ReplicateFate(c, l, elapsed);
      case AppendResponse(node, _, head, _) =>
        LeaderData(c, l);
        DeliveredAck(c, l, l, command);
        AckRuns(c, l, node, head);
      case Request(req) =>
        ReachableInv(c);
        ConfiguredNode(c, l);
        RequestRuns(c, l, req);
      case AppendEntries(_, _, _) =>
        LeaderData(c, l);
        DeliveredEntries(c, l, l, command);
        assert false;
      case _ =>
    }
  }

  /** A heartbeat never makes a follower's commit range meet the key. */
  lemma HeartbeatRuns(c: Cluster, p: NodeId, command: Command)
    requires Reachable(c) && p in c.nodes && c.nodes[p].role.Follower? && c.nodes[p].health.Running?
    requires Enabled(c, p, command) && command.Heartbeat?
    ensures FollowerHeartbeat(c.nodes[p], command.leaderId, command.term, command.commit).node.health.Running?
  {
    hide Reachable, DataInv, Fresh, FollowerHeartbeat, KeyedById, Enabled;
    StoreKeyed(c, p);
    HeartbeatFate(c.nodes[p], command.leaderId, command.term, command.commit);
    var leader := Situation(c);
    match leader {
      case None =>
        FreshCommands(c, p, command);
        assert false;
      case Some(l) =>
        DeliveredHeartbeat(c, l, p, command);
        TwoMembers(c, l, p);
        CommitsStayBelowKey(c, l);
        LeaderInputs(c, l);
    }
  }

  lemma TwoMembers(c: Cluster, l: NodeId, p: NodeId)
    requires l in c.nodes && p in c.nodes && l != p
    ensures |c.nodes| >= 2
  {
    SubsetSize({l, p}, c.nodes.Keys);
    assert |c.nodes| == |c.nodes.Keys|;
  }

  lemma SentEntries(c: Cluster, p: NodeId, command: Command)
    requires Reachable(c) && p in c.nodes && Enabled(c, p, command) && command.AppendEntries?
    ensures ExtendAll(c.nodes[p].chain, command.blocks).ok
  {
    hide Reachable, ExtendAll;
    var m :| m in c.net && m.command == command && Deliverable(m, p);
    EntriesAccepted(c, m, p);
  }

  lemma PeerFate(c: Cluster, p: NodeId, command: Command, elapsed: bool)
    requires Reachable(c) && p in c.nodes && !c.nodes[p].role.Leader? && c.nodes[p].health.Running? && Enabled(c, p, command)
    ensures Step(c.nodes[p], command, elapsed).node.health == Fate(c.nodes[p], command)
  {
    hide Reachable, FollowerHeartbeat, ExtendAll, Enabled;
    var n := c.nodes[p];
    if n.role.Follower? && command.AppendEntries? {
      SentEntries(c, p, command);
    } else if n.role.Follower? && command.Heartbeat? {
      HeartbeatRuns(c, p, command);
    } else {
      hide Step;
      ReachableInv(c);
      PeerSound(c, p);
      PeerIdle(n, command, elapsed);
    }
  }

  /** For every command that can reach a running node in any execution: whether
      it stops the node, and on what. */
  lemma StepFate(c: Cluster, p: NodeId, command: Command, elapsed: bool)
    requires Reachable(c) && p in c.nodes && c.nodes[p].health.Running? && Enabled(c, p, command)
    ensures Step(c.nodes[p], command, elapsed).node.health == Fate(c.nodes[p], command)
  {
    hide Reachable, Step, Fate, Enabled;
    if c.nodes[p].role.Leader? {
      assert IsLeader(c, p);
      LeaderFate(c, p, command, elapsed);
    } else {
      PeerFate(c, p, command, elapsed);
    }
  }

  /** Delivering entries stops the receiver exactly when it follows, has voted
      for someone else than the sender, and is in a later term. */
  lemma EntriesStopReceiver(c: Cluster, m: Message, p: NodeId, elapsed: bool)
    requires Reachable(c) && m in c.net && m.command.AppendEntries? && p in c.nodes && Deliverable(m, p)
    requires c.nodes[p].health.Running?
    ensures var n := c.nodes[p];
            Step(n, m.command, elapsed).node.health.Stopped? <==>
            n.role.Follower? && n.votedFor.Some? && n.votedFor.value != m.command.leaderId && m.command.term < n.term
  {
    hide Reachable, Step;
    StepFate(c, p, m.command, elapsed);
  }

  // ---- Stopped nodes ----

  /** Command `command` can be handled by the running node `p` and stops it with `cause`. */
  ghost predicate StopsOn(c: Cluster, p: NodeId, command: Command, cause: StopCause) {
    && p in c.nodes && c.nodes[p].health.Running? && Enabled(c, p, command)
    && Fate(c.nodes[p], command) == Stopped(cause)
  }

  /** A node that has stopped and has not crashed is as the command left it
      whose fate was that stop, handled earlier in the run. */
  lemma {:induction false} StopsHaveCauses(cs: seq<Cluster>, j: nat, p: NodeId) returns (i: nat, command: Command, elapsed: bool)
    requires Run(cs) && j < |cs| && p in cs[j].nodes
    requires cs[j].nodes[p].health.Stopped? && cs[j].nodes[p].health.cause != Crashed
    ensures i < j && StopsOn(cs[i], p, command, cs[j].nodes[p].health.cause)
    ensures cs[j].nodes[p] == Step(cs[i].nodes[p], command, elapsed).node
    decreases j
  {
    hide Step, Fate, Enabled, Init, Reachable;
    StartsRunning(cs);
    assert Follows(cs[j - 1], cs[j - 1 + 1]);
    var e :| Next(cs[j - 1], e, cs[j]);
    if cs[j - 1].nodes[p].health.Stopped? {
      i, command, elapsed := StopsHaveCauses(cs, j - 1, p);
    } else {
      StateReachable(cs, j - 1);
      StepFate(cs[j - 1], p, e.command, e.elapsed);
      i, command, elapsed := j - 1, e.command, e.elapsed;
    }
  }

  lemma StartsRunning(cs: seq<Cluster>)
    requires Run(cs)
    ensures forall p :: p in cs[0].nodes ==> cs[0].nodes[p].health.Running?
  {
  }

  /** Only leaders stop on the key and on the id assertion, and only followers on entries. */
  lemma FateOfRole(n: Node, command: Command, elapsed: bool, cause: StopCause)
    requires Fate(n, command) == Stopped(cause) && n.health.Running? && CandidateOk(n)
    ensures cause == ScanHitCommitKey || cause == IdAssertion ==> Step(n, command, elapsed).node.role.Leader?
    ensures cause == ConflictingLeader ==> Step(n, command, elapsed).node.role.Follower?
  {
    if n.role.Leader? {
      StepElectoral(n, command, elapsed);
      hide Step, Cornered;
    }
  }

  lemma StopRole(c: Cluster, p: NodeId)
    requires Reachable(c) && p in c.nodes && c.nodes[p].health.Stopped?
    ensures var cause := c.nodes[p].health.cause;
            && (cause == ScanHitCommitKey || cause == IdAssertion ==> c.nodes[p].role.Leader?)
            && (cause == ConflictingLeader ==> c.nodes[p].role.Follower?)
  {
    hide Fate, Step, Enabled, CandidateOk;
    var cs: seq<Cluster> :| Run(cs) && cs[|cs| - 1] == c;
    if c.nodes[p].health.cause != Crashed {
      var i, command, elapsed := StopsHaveCauses(cs, |cs| - 1, p);
      RunKeepsInv(cs, i);
      PeerSound(cs[i], p);
      FateOfRole(cs[i].nodes[p], command, elapsed, c.nodes[p].health.cause);
    }
  }

  /** The stops a node can come to. In particular no parent is ever missing,
      no missing block is committed, no candidate finds itself elected, no
      leader is asked to change its term, the id assertion fails only when all
      ids are used up, and only the leader ever decodes the commit pointer. */
  lemma ReachableStops(c: Cluster, p: NodeId)
    requires Reachable(c) && p in c.nodes && c.nodes[p].health.Stopped?
    ensures var n, cause := c.nodes[p], c.nodes[p].health.cause;
            || cause == Crashed
            || (cause == ScanHitCommitKey && n.role.Leader? && n.chain.commitKey.Some?)
            || (cause == ConflictingLeader && n.role.Follower?)
            || (cause == IdAssertion && n.role.Leader? && n.chain.head == U64 - 1)
  {
    hide Reachable, HealthOk, DataInv, Untouched;
    var leader := Situation(c);
    match leader {
      case None => FreshHealth(c.nodes[p]);
      case Some(l) => MemberHealth(c, l, p);
    }
    StopsOf(c.nodes[p]);
    StopRole(c, p);
  }

  /** In a cluster of two or more the key is met only by the leader's
      replication, on a tick or on an answer to a heartbeat. */
  lemma KeyMetByReplication(c: Cluster, p: NodeId, command: Command, elapsed: bool)
    requires Reachable(c) && p in c.nodes && c.nodes[p].health.Running? && Enabled(c, p, command) && |c.nodes| >= 2
    requires Step(c.nodes[p], command, elapsed).node.health == Stopped(ScanHitCommitKey)
    ensures c.nodes[p].role.Leader? && (command.Tick? || command.HeartbeatResponse?)
  {
    hide Reachable, Step, Enabled, Cornered, ElectionInv, DataInv, Configured;
    StepFate(c, p, command, elapsed);
    ReachableInv(c);
    ConfiguredNode(c, p);
    Peerless(c, p);
  }

  lemma FreshHealth(n: Node)
    requires Untouched(n)
    ensures HealthOk(n)
  {
  }

  lemma MemberHealth(c: Cluster, l: NodeId, p: NodeId)
    requires DataInv(c, l) && p in c.nodes
    ensures HealthOk(c.nodes[p])
  {
    hide MailOk, ProgressKnown, Ledger, LeaderLog, FollowerLog, Replica, MajorityReached, HealthOk;
    assert p != l ==> PeerOk(c.nodes[p], c.nodes[l].chain.blocks, |ApplyBlocks(c.nodes[l].log)|);
  }

  lemma StopsOf(n: Node)
    requires HealthOk(n) && n.health.Stopped?
    ensures var cause := n.health.cause;
            || cause == Crashed
            || (cause == ScanHitCommitKey && n.chain.commitKey.Some?)
            || cause == ConflictingLeader
            || (cause == IdAssertion && n.chain.head == U64 - 1)
  {
  }
}
