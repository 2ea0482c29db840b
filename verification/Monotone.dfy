/** What only grows along a run. */
module Monotonicity {
  import opened RaftTypes
  import opened Chains
  import opened ProgressTracking
  import opened Nodes
  import opened Clusters
  import opened ElectionSafety
  import opened Replication
  import opened ClusterInvariant

  /** Whatever the command, the log is only added to and the commit pointer only advances. */
  ghost predicate Forward(n: Node, n': Node) {
    n.log <= n'.log && n.chain.commit <= n'.chain.commit
  }

  lemma {:induction false} ExtendKeepsCommit(ch: ChainState, bs: seq<Block>)
    ensures ExtendAll(ch, bs).chain.commit == ch.commit
    decreases bs
  {
    if bs != [] && Extend(ch, bs[0]).ok {
      ExtendKeepsCommit(Extend(ch, bs[0]).chain, bs[1..]);
    }
  }

  lemma FollowerForward(n: Node, command: Command, elapsed: bool)
    requires n.role.Follower?
    ensures Forward(n, FollowerApply(n, command, elapsed).node)
  {
    if command.AppendEntries? {
      ExtendKeepsCommit(n.chain, command.blocks);
    }
  }

  lemma CandidateForward(n: Node, command: Command, elapsed: bool)
    requires n.role.Candidate?
    ensures Forward(n, CandidateApply(n, command, elapsed).node)
  {
  }

  lemma LeaderCommitForward(n: Node)
    requires n.role.Leader?
    ensures Forward(n, LeaderCommit(n))
  {
  }

  lemma LeaderForward(n: Node, command: Command, elapsed: bool)
    requires n.role.Leader?
    ensures Forward(n, LeaderApply(n, command, elapsed).node)
  {
    hide LeaderCommit, Drain, Scan, ReplicateTo;
    match command
    case AppendResponse(node, _, head, _) =>
      if node in n.role.progress && !n.role.progress[node].Snapshot? {
        LeaderCommitForward(n.(role := Leader(AdvanceNode(n.role.progress, Ack(node, head)))));
      }
    case Request(req) =>
      var r := Append(n.chain, req.proposal);
      if r.ok && n.id in n.role.progress && !n.role.progress[n.id].Snapshot? {
        LeaderCommitForward(n.(chain := r.chain, log := n.log + [Notify(req.id, req.address, r.chain.head)],
                               role := Leader(AdvanceNode(n.role.progress, Ack(n.id, r.chain.head)))));
      }
    case _ =>
  }

  lemma StepForward(n: Node, command: Command, elapsed: bool)
    ensures Forward(n, Step(n, command, elapsed).node)
  {
    hide Forward, FollowerApply, CandidateApply, LeaderApply;
    match n.role
    case Follower(_, _, _) => FollowerForward(n, command, elapsed);
    case Candidate(_, _) => CandidateForward(n, command, elapsed);
    case Leader(_) => LeaderForward(n, command, elapsed);
  }

  /** One step of the cluster: no stored block changes, logs and histories only grow, leaders remain. */
  ghost predicate Grows(c: Cluster, c': Cluster) {
    && c'.nodes.Keys == c.nodes.Keys
    && c.net <= c'.net
    && c.accepted <= c'.accepted
    && forall p :: p in c.nodes ==>
                     && Extends(c.nodes[p].chain.blocks, c'.nodes[p].chain.blocks)
                     && Forward(c.nodes[p], c'.nodes[p])
                     && (c.nodes[p].role.Leader? ==> c'.nodes[p].role.Leader?)
  }

  lemma HandleExtends(c: Cluster, l: NodeId, id: NodeId, command: Command, elapsed: bool)
    requires DataInv(c, l) && Configured(c) && id in c.nodes && CandidateOk(c.nodes[id]) && c.nodes[id].health.Running?
    requires Enabled(c, id, command)
    requires id != l ==> !c.nodes[id].role.Leader? && !Step(c.nodes[id], command, elapsed).node.role.Leader?
    ensures Extends(c.nodes[id].chain.blocks, Step(c.nodes[id], command, elapsed).node.chain.blocks)
  {
    hide DataInv, Step, Configured, CandidateOk, LeaderOk, PeerOk, ProgressKnown, MailOk;
    if id == l {
      LeaderMoves(c, l, command, elapsed);
    } else {
      PeerMoves(c, l, id, command, elapsed);
    }
  }

  lemma FreshExtends(c: Cluster, id: NodeId, command: Command, elapsed: bool)
    requires Fresh(c) && Leaderless(c) && id in c.nodes && CandidateOk(c.nodes[id]) && Enabled(c, id, command)
    ensures Extends(c.nodes[id].chain.blocks, Step(c.nodes[id], command, elapsed).node.chain.blocks)
  {
    hide Step;
    FreshCommands(c, id, command);
    PeerIdle(c.nodes[id], command, elapsed);
  }

  lemma EffectExtends(c: Cluster, e: Event, c': Cluster)
    requires Inv(c) && Next(c, e, c')
    ensures Extends(c.nodes[e.node].chain.blocks, Effect(c, e).node.chain.blocks)
  {
    hide ElectionInv, DataInv, Fresh, Step, CandidateOk, Electoral, Enabled;
    if e.Handle? {
      NextIsAfter(c, e, c');
      NextKeepsElectionInv(c, e, c');
      ConfiguredNode(c, e.node);
      if Leaderless(c) {
        FreshExtends(c, e.node, e.command, e.elapsed);
      } else {
        var l :| l in c.nodes && c.nodes[l].role.Leader?;
        EffectElectoral(c, e);
        RolesAfter(c, e);
        assert IsLeader(c, l);
        LeaderRemains(c, e, l);
        if IsLeader(c', e.node) {
          OneLeader(c', e.node, l);
        }
        assert IsLeader(c, e.node) ==> IsLeader(c', e.node);
        HandleExtends(c, l, e.node, e.command, e.elapsed);
      }
    }
  }

  lemma LeaderRemains(c: Cluster, e: Event, l: NodeId)
    requires IsLeader(c, l) && e.node in c.nodes
    requires c.nodes[e.node].role.Leader? ==> Effect(c, e).node.role.Leader?
    ensures IsLeader(After(c, e.node, Effect(c, e), Gains(c, e)), l)
  {
    hide Step;
  }

  lemma SameForward(c: Cluster)
    ensures forall p :: p in c.nodes ==> Extends(c.nodes[p].chain.blocks, c.nodes[p].chain.blocks) && Forward(c.nodes[p], c.nodes[p])
    ensures forall p :: p in c.nodes ==> Forward(c.nodes[p], Stop(c.nodes[p], Crashed))
  {
  }

  lemma NextGrows(c: Cluster, e: Event, c': Cluster)
    requires Inv(c) && Next(c, e, c')
    ensures Grows(c, c')
  {
    hide ElectionInv, DataInv, Fresh, Step, Electoral, CandidateOk, Extends, Forward, Enabled;
    EffectExtends(c, e, c');
    NextIsAfter(c, e, c');
    ConfiguredNode(c, e.node);
    EffectElectoral(c, e);
    RolesAfter(c, e);
    SameForward(c);
    if e.Handle? {
      StepForward(c.nodes[e.node], e.command, e.elapsed);
    }
    assert c'.nodes.Keys == c.nodes.Keys;
  }

  lemma GrowsReflexive(c: Cluster)
    ensures Grows(c, c)
  {
  }

  lemma GrowsTransitive(a: Cluster, b: Cluster, c: Cluster)
    requires Grows(a, b) && Grows(b, c)
    ensures Grows(a, c)
  {
  }

  /** From any state of a run to any later one. */
  lemma {:induction false} RunGrows(cs: seq<Cluster>, i: nat, j: nat)
    requires Run(cs) && i <= j < |cs|
    ensures Grows(cs[i], cs[j])
    decreases j
  {
    hide Grows, Inv, Next, Init;
    if i == j {
      GrowsReflexive(cs[i]);
    } else {
      RunGrows(cs, i, j - 1);
      RunKeepsInv(cs, j - 1);
      assert Follows(cs[j - 1], cs[j - 1 + 1]);
      var e :| Next(cs[j - 1], e, cs[j]);
      NextGrows(cs[j - 1], e, cs[j]);
      GrowsTransitive(cs[i], cs[j - 1], cs[j]);
    }
  }
}
