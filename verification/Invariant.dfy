/** The inductive invariant of the cluster: election safety, nothing stored
    before the first election, and replication from the one leader after it. */
module ClusterInvariant {
  import opened RaftTypes
  import opened Chains
  import opened ProgressTracking
  import opened Nodes
  import opened Clusters
  import opened ElectionSafety
  import opened Replication
  import opened ReplicationSteps

  ghost predicate Leaderless(c: Cluster) {
    forall p :: p in c.nodes ==> !c.nodes[p].role.Leader?
  }

  ghost predicate Inv(c: Cluster) {
    && ElectionInv(c)
    && (Leaderless(c) ==> Fresh(c))
    && (forall l :: IsLeader(c, l) ==> DataInv(c, l))
  }

  // ---- Nodes that do not lead ----

  /** Handling anything but entries and heartbeats leaves the store and the log
      alone, and sends replication traffic only on taking the lead. */
  ghost predicate Idle(n: Node, out: Out) {
    && out.node.chain == n.chain && out.node.log == n.log && out.node.health == n.health && out.node.id == n.id
    && (forall m :: m in out.msgs ==>
                      Electioneering(m)
                      || (out.node.role.Leader? && m.command.Heartbeat? && m.command.leaderId == n.id && m.command.commit == n.chain.commit))
    && (out.node.role.Leader? ==> out.node.role.progress == FreshProgress(Voters(n)))
  }

  lemma FollowerIdle(n: Node, command: Command, elapsed: bool)
    requires n.role.Follower? && !command.AppendEntries? && !command.Heartbeat?
    ensures Idle(n, FollowerApply(n, command, elapsed))
  {
  }

  lemma CandidateIdle(n: Node, command: Command, elapsed: bool)
    requires n.role.Candidate? && CandidateOk(n)
    ensures Idle(n, CandidateApply(n, command, elapsed))
  {
  }

  lemma PeerIdle(n: Node, command: Command, elapsed: bool)
    requires !n.role.Leader? && CandidateOk(n)
    requires n.role.Candidate? || (!command.AppendEntries? && !command.Heartbeat?)
    ensures Idle(n, Step(n, command, elapsed))
  {
    hide Idle;
    if n.role.Follower? {
      FollowerIdle(n, command, elapsed);
    } else {
      CandidateIdle(n, command, elapsed);
    }
  }

  lemma LedgerLinked(ch: ChainState, accepted: seq<ClientRequest>)
    requires Ledger(ch, accepted)
    ensures Linked(ch.blocks) && GenesisOk(ch.blocks) && KeyedById(ch)
  {
  }

  /** The facts about mail that delivery turns into facts about commands. */
  lemma DeliveredEntries(c: Cluster, l: NodeId, id: NodeId, command: Command)
    requires DataInv(c, l) && Enabled(c, id, command) && command.AppendEntries?
    ensures id != l && id in c.nodes && BatchOk(command.blocks, c.nodes[id].chain.blocks, c.nodes[l].chain.blocks)
  {
    var m :| m in c.net && m.command == command && Deliverable(m, id);
    assert MailOk(c, l, m);
  }

  lemma DeliveredHeartbeat(c: Cluster, l: NodeId, id: NodeId, command: Command)
    requires DataInv(c, l) && Enabled(c, id, command) && command.Heartbeat?
    ensures command.commit <= |ApplyBlocks(c.nodes[l].log)|
  {
    var m :| m in c.net && m.command == command && Deliverable(m, id);
    assert MailOk(c, l, m);
  }

  lemma DeliveredAck(c: Cluster, l: NodeId, id: NodeId, command: Command)
    requires DataInv(c, l) && Enabled(c, id, command) && command.AppendResponse?
    ensures command.nodeId in c.nodes && command.head in c.nodes[command.nodeId].chain.blocks
  {
    var m :| m in c.net && m.command == command && Deliverable(m, id);
    assert MailOk(c, l, m);
  }

  /** What a step of a node that does not lead must amount to. */
  ghost predicate PeerMove(n: Node, out: Out, ledger: Blocks, applied: nat) {
    && PeerOk(out.node, ledger, applied)
    && Extends(n.chain.blocks, out.node.chain.blocks)
    && forall m :: m in out.msgs ==> PeerMail(n.id, out.node.chain.blocks, m)
  }

  lemma EntriesMove(n: Node, command: Command, elapsed: bool, ledger: Blocks, applied: nat)
    requires n.role.Follower? && n.health.Running? && command.AppendEntries?
    requires PeerOk(n, ledger, applied) && Linked(ledger) && BatchOk(command.blocks, n.chain.blocks, ledger)
    ensures PeerMove(n, Step(n, command, elapsed), ledger, applied)
  {
    FollowerAppendOk(n, command.blocks, command.leaderId, command.term, ledger, applied);
    hide PeerOk, FollowerAppendEntries, BatchOk, Linked, PeerMail;
  }

  lemma HeartbeatMove(n: Node, command: Command, elapsed: bool, ledger: Blocks, applied: nat)
    requires n.role.Follower? && n.health.Running? && command.Heartbeat?
    requires PeerOk(n, ledger, applied) && Linked(ledger) && GenesisOk(ledger) && command.commit <= applied
    ensures PeerMove(n, Step(n, command, elapsed), ledger, applied)
  {
    hide PeerOk, FollowerHeartbeat, Linked, GenesisOk;
    FollowerHeartbeatOk(n, command.leaderId, command.term, command.commit, ledger, applied);
  }

  lemma IdleMove(n: Node, out: Out, ledger: Blocks, applied: nat)
    requires Idle(n, out) && !n.role.Leader? && !out.node.role.Leader? && PeerOk(n, ledger, applied)
    ensures PeerMove(n, out, ledger, applied)
  {
    hide PeerOk;
    SamePeerOk(n, out.node, ledger, applied);
  }

  lemma PeerMoves(c: Cluster, l: NodeId, id: NodeId, command: Command, elapsed: bool)
    requires DataInv(c, l) && id in c.nodes && id != l && Enabled(c, id, command)
    requires CandidateOk(c.nodes[id]) && c.nodes[id].health.Running? && !c.nodes[id].role.Leader?
    requires !Step(c.nodes[id], command, elapsed).node.role.Leader?
    ensures PeerMove(c.nodes[id], Step(c.nodes[id], command, elapsed), c.nodes[l].chain.blocks, |ApplyBlocks(c.nodes[l].log)|)
  {
    var n := c.nodes[id];
    var ledger, applied := c.nodes[l].chain.blocks, |ApplyBlocks(c.nodes[l].log)|;
    LedgerLinked(c.nodes[l].chain, c.accepted);
    hide PeerMove, PeerOk, LeaderOk, MailOk, Linked, GenesisOk, BatchOk, Step, CandidateOk, ProgressKnown;
    assert PeerOk(n, ledger, applied);
    if n.role.Follower? && command.AppendEntries? {
      DeliveredEntries(c, l, id, command);
      EntriesMove(n, command, elapsed, ledger, applied);
    } else if n.role.Follower? && command.Heartbeat? {
      DeliveredHeartbeat(c, l, id, command);
      HeartbeatMove(n, command, elapsed, ledger, applied);
    } else {
      PeerIdle(n, command, elapsed);
      IdleMove(n, Step(n, command, elapsed), ledger, applied);
    }
  }

  // ---- The leader ----

  /** The leader keeps its state but, perhaps, stops. */
  ghost predicate AtMostStops(n: Node, k: Node) {
    || k == n
    || k == Stop(n, Crashed)
    || (n.chain.commitKey.Some? && k == Stop(n, ScanHitCommitKey))
  }

  lemma StoppedLeaderOk(n: Node, k: Node, accepted: seq<ClientRequest>, members: set<NodeId>)
    requires LeaderOk(n, accepted, members) && AtMostStops(n, k)
    ensures LeaderOk(k, accepted, members)
  {
  }

  lemma SameProgressKnown(c: Cluster, c': Cluster, l: NodeId)
    requires IsLeader(c, l) && IsLeader(c', l) && ProgressKnown(c, l)
    requires c'.nodes.Keys == c.nodes.Keys && c'.nodes[l].role == c.nodes[l].role
    requires forall p :: p in c.nodes ==> c'.nodes[p].chain == c.nodes[p].chain
    ensures ProgressKnown(c', l)
  {
  }

  lemma LeaderSame(c: Cluster, l: NodeId, out: Out)
    requires DataInv(c, l) && AtMostStops(c.nodes[l], out.node)
    requires forall m :: m in out.msgs ==> MailOk(c, l, m)
    ensures LeaderMove(c, l, out, [])
  {
    hide LeaderOk, MailOk, ProgressKnown, PeerOk;
    assert c.accepted + [] == c.accepted;
    var c' := After(c, l, out, []);
    assert GrowsAt(c, c', l);
    StoppedLeaderOk(c.nodes[l], out.node, c.accepted, c.nodes.Keys);
    SameProgressKnown(c, c', l);
    forall m | m in out.msgs ensures MailOk(c', l, m) {
      MailOkGrows(c, c', l, l, m);
    }
  }

  lemma StoredBelowHead(c: Cluster, l: NodeId, p: NodeId, id: BlockId)
    requires DataInv(c, l) && p in c.nodes && id in c.nodes[p].chain.blocks
    ensures id <= c.nodes[l].chain.head
  {
    hide MailOk, ProgressKnown, LeaderLog, FollowerLog, MajorityReached, HealthOk;
    assert p != l ==> PeerOk(c.nodes[p], c.nodes[l].chain.blocks, |ApplyBlocks(c.nodes[l].log)|);
    assert id in c.nodes[l].chain.blocks;
  }

  lemma ProgressBounded(c: Cluster, l: NodeId)
    requires DataInv(c, l) && IsLeader(c, l) && ProgressKnown(c, l)
    ensures forall p :: p in c.nodes && p in c.nodes[l].role.progress ==> c.nodes[l].role.progress[p].head <= c.nodes[l].chain.head
  {
    hide DataInv;
    forall p | p in c.nodes && p in c.nodes[l].role.progress
      ensures c.nodes[l].role.progress[p].head <= c.nodes[l].chain.head
    {
      StoredBelowHead(c, l, p, c.nodes[l].role.progress[p].head);
    }
  }

  /** Every batch the leader sends hangs from a block its addressee stores. */
  lemma ReplicationMail(c: Cluster, l: NodeId, m: Message)
    requires DataInv(c, l) && Configured(c)
    requires m in ReplicateTo(c.nodes[l], c.nodes[l].peers).msgs
    ensures MailOk(c, l, m)
  {
    hide PeerOk, MailOk, LeaderLog, MajorityReached, ReplicateTo, HealthOk;
    LedgerLinked(c.nodes[l].chain, c.accepted);
    hide Ledger, Linked;
    ReplicateOk(c.nodes[l], c.nodes[l].peers, m);
    assert m.to.id in c.nodes.Keys - {l};
    BatchMail(c, l, m);
  }

  lemma BatchMail(c: Cluster, l: NodeId, m: Message)
    requires IsLeader(c, l) && ProgressKnown(c, l)
    requires m.command.AppendEntries? && m.command.leaderId == l && m.to.Peer?
    requires m.to.id in c.nodes && m.to.id != l && m.to.id in c.nodes[l].role.progress
    requires RunOf(c.nodes[l].chain.blocks, m.command.blocks, c.nodes[l].role.progress[m.to.id].head + 1)
    ensures MailOk(c, l, m)
  {
    if m.command.blocks != [] {
      assert m.command.blocks[0].id == c.nodes[l].role.progress[m.to.id].head + 1;
    }
  }

  /** Replication stops only by meeting the key "commit". */
  lemma {:induction false} ReplicateStops(n: Node, targets: seq<NodeId>)
    requires n.role.Leader? && !ReplicateTo(n, targets).ok
    ensures n.chain.commitKey.Some?
    decreases targets
  {
    var p := targets[0];
    if p !in n.role.progress || !IsActive(n.role.progress[p]) || n.role.progress[p].Snapshot? {
      ReplicateStops(n, targets[1..]);
    } else {
      var es := Scan(n.chain, n.role.progress[p].head, U64);
      var window := es[..Min(|es|, Window(n.role.progress[p]))];
      DrainOk(window);
      if CommitEntry in window {
        assert CommitEntry in es;
        ScanCommitKey(n.chain, n.role.progress[p].head, U64);
      } else {
        ReplicateStops(n, targets[1..]);
      }
    }
  }

  lemma {:induction false} ScanCommitKey(ch: ChainState, lo: nat, hi: nat)
    requires hi <= U64 && CommitEntry in Scan(ch, lo, hi)
    ensures ch.commitKey.Some?
    decreases hi - lo
  {
    if ch.commitKey.None? {
      ScanCommitKey(ch, lo + 1, hi);
    }
  }

  lemma ReplicateMove(c: Cluster, l: NodeId, elapsed: bool)
    requires DataInv(c, l) && IsLeader(c, l) && Configured(c) && c.nodes[l].id == l && c.nodes[l].health.Running?
    ensures LeaderMove(c, l, LeaderReplicate(c.nodes[l]), [])
    ensures LeaderMove(c, l, LeaderTick(c.nodes[l], elapsed), [])
  {
    hide LeaderOk, MailOk, PeerOk, ProgressKnown, ReplicateTo, LeaderMove, Configured, DataInv;
    var n := c.nodes[l];
    LeaderHeartbeatMail(c, l);
    var s := ReplicateTo(n, n.peers);
    if !s.ok {
      ReplicateStops(n, n.peers);
    }
    forall m | m in s.msgs ensures MailOk(c, l, m) {
      ReplicationMail(c, l, m);
    }
    LeaderSame(c, l, LeaderReplicate(n));
    LeaderSame(c, l, LeaderTick(n, elapsed));
  }

  /** A running leader has handed every committed block to its driver. */
  lemma LeaderHeartbeatMail(c: Cluster, l: NodeId)
    requires DataInv(c, l) && c.nodes[l].id == l && c.nodes[l].health.Running?
    ensures MailOk(c, l, HeartbeatMail(c.nodes[l]))
  {
    hide PeerOk, ProgressKnown, Ledger, MajorityReached;
  }

  lemma ProgressAfterAck(c: Cluster, l: NodeId, out: Out, node: NodeId, head: BlockId)
    requires IsLeader(c, l) && ProgressKnown(c, l) && Tracks(c.nodes[l].role.progress, c.nodes.Keys)
    requires node in c.nodes && head in c.nodes[node].chain.blocks
    requires out.node.role == Leader(AdvanceNode(c.nodes[l].role.progress, Ack(node, head)))
    requires out.node.chain.blocks == c.nodes[l].chain.blocks
    ensures ProgressKnown(After(c, l, out, []), l)
  {
  }

  lemma LeaderFacts(n: Node, accepted: seq<ClientRequest>, members: set<NodeId>)
    requires LeaderOk(n, accepted, members)
    ensures n.role.Leader? && n.id in members && Tracks(n.role.progress, members)
    ensures Dense(n.chain, n.chain.head) && Ledger(n.chain, accepted)
  {
  }

  lemma AckMove(c: Cluster, l: NodeId, node: NodeId, head: BlockId)
    requires DataInv(c, l) && c.nodes[l].health.Running?
    requires node in c.nodes && head in c.nodes[node].chain.blocks
    ensures LeaderMove(c, l, Out(LeaderAppendResponse(c.nodes[l], node, head), []), [])
  {
    hide LeaderOk, MailOk, PeerOk, LeaderAppendResponse, ProgressKnown, ApplyBlocks;
    var n := c.nodes[l];
    LeaderFacts(n, c.accepted, c.nodes.Keys);
    ProgressBounded(c, l);
    StoredBelowHead(c, l, node, head);
    LeaderAckOk(n, node, head, c.accepted, c.nodes.Keys);
    assert c.accepted + [] == c.accepted;
    ProgressAfterAck(c, l, Out(LeaderAppendResponse(n, node, head), []), node, head);
  }

  lemma ProgressAfterRequest(c: Cluster, l: NodeId, out: Out, taken: seq<ClientRequest>)
    requires IsLeader(c, l) && ProgressKnown(c, l) && Tracks(c.nodes[l].role.progress, c.nodes.Keys)
    requires out.node.role.Leader? && out.node.role.progress.Keys == c.nodes.Keys
    requires forall p :: p in c.nodes && p != l ==> out.node.role.progress[p] == c.nodes[l].role.progress[p]
    requires out.node.role.progress[l].head in out.node.chain.blocks
    ensures ProgressKnown(After(c, l, out, taken), l)
  {
  }

  lemma RequestMove(c: Cluster, l: NodeId, req: ClientRequest)
    requires DataInv(c, l) && c.nodes[l].id == l && c.nodes[l].health.Running?
    ensures LeaderMove(c, l, Out(LeaderRequest(c.nodes[l], req), []), Taken(c.nodes[l], Request(req)))
  {
    hide LeaderOk, MailOk, PeerOk, LeaderRequest, ProgressKnown, ApplyBlocks, Taken;
    var n := c.nodes[l];
    LeaderFacts(n, c.accepted, c.nodes.Keys);
    ProgressBounded(c, l);
    LeaderRequestOk(n, req, c.accepted, c.nodes.Keys);
    ProgressAfterRequest(c, l, Out(LeaderRequest(n, req), []), Taken(n, Request(req)));
  }

  lemma LeaderMoves(c: Cluster, l: NodeId, command: Command, elapsed: bool)
    requires DataInv(c, l) && Configured(c) && c.nodes[l].health.Running? && Enabled(c, l, command)
    ensures LeaderMove(c, l, Step(c.nodes[l], command, elapsed), Taken(c.nodes[l], command))
  {
    hide LeaderMove, LeaderOk, MailOk, PeerOk, LeaderRequest, LeaderAppendResponse, LeaderReplicate, LeaderTick, ProgressKnown,
         BatchOk;
    var n := c.nodes[l];
    match command
    case Tick => ReplicateMove(c, l, elapsed);
    case HeartbeatResponse(commit, has) =>
      if !has && commit > 0 {
        ReplicateMove(c, l, elapsed);
      } else {
        LeaderSame(c, l, Out(n, []));
      }
    case AppendResponse(node, _, head, _) =>
      DeliveredAck(c, l, l, command);
      AckMove(c, l, node, head);
    case AppendEntries(_, _, _) =>
      DeliveredEntries(c, l, l, command);
      assert false;
    case Request(req) => RequestMove(c, l, req);
    case _ => LeaderSame(c, l, Out(n, []));
  }

  // ---- Before the first election, and the election itself ----

  lemma FreshLeaderOk(n: Node, members: set<NodeId>)
    requires n.role.Leader? && n.chain == FreshChain() && n.log == [] && n.health.Running?
    requires n.id in members && n.role.progress == map id | id in members :: NewProgress()
    ensures LeaderOk(n, [], members)
  {
    var heads := Heads(n.role.progress);
    assert heads.Keys == members && Reached(heads, 0) == members;
    assert |heads| == |members|;
    assert n.id in members && |members| > 0;
  }

  lemma FreshPeerOk(n: Node)
    requires Untouched(n)
    ensures PeerOk(n, FreshChain().blocks, 0)
  {
  }

  /** The moment a leader appears everything is as it started. */
  lemma FirstLeader(c: Cluster, id: NodeId, out: Out)
    requires Fresh(c) && Configured(c) && id in c.nodes && c.nodes[id].health.Running?
    requires Idle(c.nodes[id], out) && out.node.role.Leader?
    ensures DataInv(After(c, id, out, []), id)
  {
    hide LeaderOk, PeerOk, MailOk, ProgressKnown, Electioneering;
    var c' := After(c, id, out, []);
    assert c'.accepted == [] && c'.nodes.Keys == c.nodes.Keys;
    FirstVoters(c, id);
    hide Voters, Configured, FreshProgress;
    FreshLeaderOk(out.node, c.nodes.Keys);
    FirstProgress(c', id);
    forall p | p in c'.nodes && p != id
      ensures PeerOk(c'.nodes[p], c'.nodes[id].chain.blocks, |ApplyBlocks(c'.nodes[id].log)|)
    {
      FreshPeerOk(c.nodes[p]);
    }
    forall m | m in c'.net ensures MailOk(c', id, m) {
      FirstMail(c', id, m);
    }
  }

  lemma FirstVoters(c: Cluster, id: NodeId)
    requires Configured(c) && id in c.nodes
    ensures c.nodes[id].id == id && FreshProgress(Voters(c.nodes[id])) == map p | p in c.nodes.Keys :: NewProgress()
  {
    assert forall p :: p in Voters(c.nodes[id]) <==> p in c.nodes.Keys;
  }

  lemma FirstProgress(c: Cluster, id: NodeId)
    requires IsLeader(c, id) && forall p :: p in c.nodes ==> c.nodes[p].chain == FreshChain()
    requires c.nodes[id].role.progress == map p | p in c.nodes.Keys :: NewProgress()
    ensures ProgressKnown(c, id)
  {
  }

  lemma FirstMail(c: Cluster, id: NodeId, m: Message)
    requires IsLeader(c, id)
    requires Electioneering(m) || (m.command.Heartbeat? && m.command.leaderId == id && m.command.commit == 0)
    ensures MailOk(c, id, m)
  {
  }

  lemma StaysFresh(c: Cluster, id: NodeId, out: Out)
    requires Fresh(c) && id in c.nodes && !out.node.role.Leader?
    requires Idle(c.nodes[id], out) || (out.node == Stop(c.nodes[id], Crashed) && out.msgs == [])
    ensures Fresh(After(c, id, out, []))
  {
  }

  lemma FreshCommands(c: Cluster, id: NodeId, command: Command)
    requires Fresh(c) && Enabled(c, id, command)
    ensures !command.AppendEntries? && !command.Heartbeat?
  {
  }

  // ---- Every event ----

  lemma PeerEvent(c: Cluster, l: NodeId, e: Event)
    requires DataInv(c, l) && ElectionInv(c) && e.node in c.nodes && e.node != l
    requires e.Report? || c.nodes[e.node].health.Running?
    requires !c.nodes[e.node].role.Leader? && !Effect(c, e).node.role.Leader? && Enabled(c, e.node, Cause(e))
    ensures DataInv(After(c, e.node, Effect(c, e), []), l)
  {
    hide LeaderOk, PeerOk, MailOk, ProgressKnown, ElectionInv, Step, Idle, PeerMail;
    var ledger, applied := c.nodes[l].chain.blocks, |ApplyBlocks(c.nodes[l].log)|;
    var n := c.nodes[e.node];
    ConfiguredNode(c, e.node);
    match e {
      case Handle(id, command, elapsed) => PeerMoves(c, l, id, command, elapsed);
      case Crash(id) => SamePeerOk(n, Stop(n, Crashed), ledger, applied);
      case Report(id, to, req, reply) => assert PeerMail(id, n.chain.blocks, Effect(c, e).msgs[0]) by { ReportMail(id, to, req, reply, n.chain.blocks); }
    }
    PeerStep(c, l, e.node, Effect(c, e));
  }

  lemma ReportMail(id: NodeId, to: NodeId, req: RequestId, reply: Reply, stored: Blocks)
    ensures PeerMail(id, stored, Message(Peer(id), Peer(to), Response(req, reply)))
  {
  }

  lemma ReportMailOk(c: Cluster, l: NodeId, to: NodeId, req: RequestId, reply: Reply)
    requires IsLeader(c, l)
    ensures MailOk(c, l, Message(Peer(l), Peer(to), Response(req, reply)))
  {
  }

  lemma ConfiguredNode(c: Cluster, id: NodeId)
    requires ElectionInv(c) && id in c.nodes
    ensures c.nodes[id].id == id && CandidateOk(c.nodes[id]) && Configured(c)
  {
  }

  lemma LeaderEvent(c: Cluster, l: NodeId, e: Event)
    requires DataInv(c, l) && ElectionInv(c) && e.node == l
    requires e.Report? || c.nodes[l].health.Running?
    requires Enabled(c, l, Cause(e))
    ensures DataInv(After(c, l, Effect(c, e), Gains(c, e)), l)
  {
    hide LeaderOk, PeerOk, ProgressKnown, MailOk, ElectionInv, Step, Taken, LeaderMove;
    ConfiguredNode(c, l);
    match e {
      case Handle(_, command, elapsed) => LeaderMoves(c, l, command, elapsed);
      case Crash(_) => LeaderSame(c, l, Effect(c, e));
      case Report(_, to, req, reply) =>
        ReportMailOk(c, l, to, req, reply);
        LeaderSame(c, l, Effect(c, e));
    }
    LeaderStep(c, l, Effect(c, e), Gains(c, e));
  }

  lemma FreshEvent(c: Cluster, e: Event)
    requires Fresh(c) && Leaderless(c) && ElectionInv(c) && e.node in c.nodes && Enabled(c, e.node, Cause(e))
    requires e.Report? || c.nodes[e.node].health.Running?
    ensures var c' := After(c, e.node, Effect(c, e), Gains(c, e));
            if Effect(c, e).node.role.Leader? then DataInv(c', e.node) else Fresh(c')
  {
    hide ElectionInv, Step, Idle, DataInv;
    var n := c.nodes[e.node];
    ConfiguredNode(c, e.node);
    assert Gains(c, e) == [];
    var out := Effect(c, e);
    match e {
      case Handle(id, command, elapsed) =>
        FreshCommands(c, id, command);
        PeerIdle(n, command, elapsed);
      case Crash(_) =>
      case Report(_, _, _, _) => assert Idle(n, out) by { ReportIdle(n, out); }
    }
    if out.node.role.Leader? {
      FirstLeader(c, e.node, out);
    } else {
      StaysFresh(c, e.node, out);
    }
  }

  lemma ReportIdle(n: Node, out: Out)
    requires out.node == n && !n.role.Leader? && |out.msgs| == 1 && out.msgs[0].command.Response?
    ensures Idle(n, out)
  {
  }

  lemma NextKeepsInv(c: Cluster, e: Event, c': Cluster)
    requires Inv(c) && Next(c, e, c')
    ensures Inv(c')
  {
    hide ElectionInv, DataInv, Fresh, Step, Idle;
    NextIsAfter(c, e, c');
    NextKeepsElectionInv(c, e, c');
    ConfiguredNode(c, e.node);
    EffectElectoral(c, e);
    RolesAfter(c, e);
    if Leaderless(c) {
      FreshEvent(c, e);
      assert forall p :: IsLeader(c', p) ==> p == e.node || IsLeader(c, p);
      assert forall p :: !IsLeader(c, p);
      if Effect(c, e).node.role.Leader? {
        assert IsLeader(c', e.node);
      } else {
        assert forall p :: !IsLeader(c', p);
        assert forall p :: p in c'.nodes && c'.nodes[p].role.Leader? ==> IsLeader(c', p);
      }
    } else {
      var l :| l in c.nodes && c.nodes[l].role.Leader?;
      assert IsLeader(c, l) && IsLeader(c', l);
      forall p | IsLeader(c', p) ensures p == l {
        OneLeader(c', p, l);
      }
      if e.node == l {
        LeaderEvent(c, l, e);
      } else {
        assert IsLeader(c, e.node) ==> IsLeader(c', e.node);
        assert Gains(c, e) == [] && !IsLeader(c', e.node);
        PeerEvent(c, l, e);
      }
    }
  }

  /** Leaders stay, and others change only at the node of the event. */
  lemma RolesAfter(c: Cluster, e: Event)
    requires e.node in c.nodes && Electoral(c.nodes[e.node], Cause(e), Effect(c, e))
    ensures c.nodes[e.node].role.Leader? ==> Effect(c, e).node.role.Leader?
  {
  }

  lemma InitHasInv(c: Cluster)
    requires Init(c)
    ensures Inv(c)
  {
  }

  /** The invariant holds in every state of every run. */
  lemma {:induction false} RunKeepsInv(cs: seq<Cluster>, i: nat)
    requires Run(cs) && i < |cs|
    ensures Inv(cs[i])
    decreases i
  {
    if i == 0 {
      InitHasInv(cs[0]);
    } else {
      RunKeepsInv(cs, i - 1);
      assert Follows(cs[i - 1], cs[i - 1 + 1]);
      var e :| Next(cs[i - 1], e, cs[i]);
      NextKeepsInv(cs[i - 1], e, cs[i]);
    }
  }

  lemma ReachableInv(c: Cluster)
    requires Reachable(c)
    ensures Inv(c)
  {
    var cs :| Run(cs) && cs[|cs| - 1] == c;
    RunKeepsInv(cs, |cs| - 1);
  }
}
