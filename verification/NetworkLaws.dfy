/** What the messages sent and the votes given in a run say about it. */
module NetworkLaws {
  import opened RaftTypes
  import opened Chains
  import opened Elections
  import opened Nodes
  import opened Clusters
  import opened ElectionSafety
  import opened Replication
  import opened ClusterInvariant
  import opened HandlerLaws

  // ---- Votes bind ----

  /** A follower that has voted never stops being one. */
  lemma {:induction false} VotesBind(cs: seq<Cluster>, i: nat, j: nat, p: NodeId)
    requires Run(cs) && i <= j < |cs| && p in cs[i].nodes && HasVoted(cs[i].nodes[p])
    ensures p in cs[j].nodes && HasVoted(cs[j].nodes[p])
    decreases j
  {
    hide Step, Enabled, Inv;
    if i < j {
      VotesBind(cs, i, j - 1, p);
      assert Follows(cs[j - 1], cs[j - 1 + 1]);
      var e :| Next(cs[j - 1], e, cs[j]);
      RunKeepsInv(cs, j - 1);
      NodeSound(cs[j - 1], e.node);
      EffectElectoral(cs[j - 1], e);
      NextIsAfter(cs[j - 1], e, cs[j]);
    }
  }

  lemma NodeSound(c: Cluster, p: NodeId)
    requires Inv(c) && p in c.nodes
    ensures c.nodes[p].id == p && CandidateOk(c.nodes[p])
  {
    hide DataInv, Fresh;
    ConfiguredNode(c, p);
  }

  /** A follower that has taken entries from a sender not behind it, or had voted
      before, follows to the end of the run: it never stands again. */
  lemma EntriesBind(cs: seq<Cluster>, i: nat, j: nat, p: NodeId, command: Command, elapsed: bool)
    requires Run(cs) && i < j < |cs| && p in cs[i].nodes && cs[i].nodes[p].role.Follower? && command.AppendEntries?
    requires Next(cs[i], Handle(p, command, elapsed), cs[i + 1])
    requires cs[i].nodes[p].votedFor.Some? || cs[i].nodes[p].term <= command.term
    ensures p in cs[j].nodes && cs[j].nodes[p].role.Follower? && cs[j].nodes[p].votedFor.Some?
  {
    hide Step, Enabled, Run;
    EntriesAdopt(cs[i].nodes[p], command, elapsed);
    VotesBind(cs, i + 1, j, p);
  }

  // ---- Grants answer calls ----

  /** A call of `candidate` made in a term no earlier than `term`. */
  ghost predicate Called(net: set<Message>, candidate: NodeId, term: Term) {
    exists m :: m in net && m.command.VoteRequest? && m.command.candidateId == candidate && term <= m.command.lastTerm
  }

  lemma GrantsAnswerACall(n: Node, command: Command, elapsed: bool, m: Message)
    requires CandidateOk(n) && m in Step(n, command, elapsed).msgs && Granting(m)
    ensures command.VoteRequest? && n.role.Follower?
    ensures m.to == Peer(command.candidateId) && m.command.term <= command.lastTerm
  {
    StepElectoral(n, command, elapsed);
    if command.VoteRequest? {
      CallAnswered(n, command, elapsed);
      hide Step;
    } else if command.Heartbeat? {
      hide Drain, Scan;
    }
  }

  // ---- Leaders make themselves known ----

  lemma NewLeaderBeats(n: Node, command: Command, elapsed: bool)
    requires !n.role.Leader? && Step(n, command, elapsed).node.role.Leader?
    ensures var out := Step(n, command, elapsed);
            Message(Peer(n.id), Peers, Heartbeat(out.node.term, n.chain.commit, n.id)) in out.msgs
  {
    hide Status;
  }

  lemma LeaderKeepsTerm(n: Node, command: Command, elapsed: bool)
    requires n.role.Leader? && !command.AppendEntries?
    ensures Step(n, command, elapsed).node.term == n.term
  {
    hide Drain, Scan, ScanThrough, ReplicateTo;
  }

  /** Every grant answers a call of the candidate it goes to, in a term not
      behind the voter's; and every leader has told everybody, in its term. */
  ghost predicate NetOk(c: Cluster) {
    && (forall m :: m in c.net && Granting(m) ==> m.to.Peer? && Called(c.net, m.to.id, m.command.term))
    && (forall l :: IsLeader(c, l) ==> Message(Peer(l), Peers, Heartbeat(c.nodes[l].term, 0, l)) in c.net)
  }

  lemma HandleKeepsNet(c: Cluster, id: NodeId, command: Command, elapsed: bool, out: Out, taken: seq<ClientRequest>)
    requires Inv(c) && NetOk(c) && id in c.nodes && c.nodes[id].health.Running? && Enabled(c, id, command)
    requires out == Step(c.nodes[id], command, elapsed)
    ensures NetOk(After(c, id, out, taken))
  {
    hide Step, DataInv, Fresh;
    var n, c' := c.nodes[id], After(c, id, out, taken);
    NodeSound(c, id);
    forall m | m in c'.net && Granting(m) ensures m.to.Peer? && Called(c'.net, m.to.id, m.command.term) {
      if m in c.net {
        CalledStays(c.net, c'.net, m.to.id, m.command.term);
      } else {
        GrantsAnswerACall(n, command, elapsed, m);
        var call :| call in c.net && call.command == command && Deliverable(call, id);
        assert call in c'.net;
      }
    }
    forall l | IsLeader(c', l) ensures Message(Peer(l), Peers, Heartbeat(c'.nodes[l].term, 0, l)) in c'.net {
      if l == id {
        LeaderBeats(c, id, command, elapsed, out);
      } else {
        assert IsLeader(c, l);
      }
    }
  }

  lemma CalledStays(net: set<Message>, net': set<Message>, candidate: NodeId, term: Term)
    requires Called(net, candidate, term) && net <= net'
    ensures Called(net', candidate, term)
  {
  }

  lemma LeaderBeats(c: Cluster, id: NodeId, command: Command, elapsed: bool, out: Out)
    requires Inv(c) && NetOk(c) && id in c.nodes && c.nodes[id].health.Running? && Enabled(c, id, command)
    requires out == Step(c.nodes[id], command, elapsed) && out.node.role.Leader?
    ensures var m := Message(Peer(id), Peers, Heartbeat(out.node.term, 0, id)); m in c.net || m in out.msgs
  {
    hide Step, DataInv, Fresh, Called;
    NodeSound(c, id);
    if c.nodes[id].role.Leader? {
      assert IsLeader(c, id);
      if command.AppendEntries? {
        DeliveredEntries(c, id, id, command);
        assert false;
      }
      LeaderKeepsTerm(c.nodes[id], command, elapsed);
    } else {
      NewLeaderBeats(c.nodes[id], command, elapsed);
      FirstElected(c, id, command, elapsed);
    }
  }

  /** Whoever is elected has committed nothing yet. */
  lemma FirstElected(c: Cluster, id: NodeId, command: Command, elapsed: bool)
    requires Inv(c) && id in c.nodes && c.nodes[id].health.Running? && Enabled(c, id, command)
    requires !c.nodes[id].role.Leader? && Step(c.nodes[id], command, elapsed).node.role.Leader?
    ensures c.nodes[id].chain.commit == 0
  {
    hide Step, DataInv, ElectionInv;
    var out := Step(c.nodes[id], command, elapsed);
    var c' := After(c, id, out, Taken(c.nodes[id], command));
    NextKeepsElectionInv(c, Handle(id, command, elapsed), c');
    assert IsLeader(c', id);
    if !Leaderless(c) {
      var l :| l in c.nodes && c.nodes[l].role.Leader?;
      assert IsLeader(c', l);
      OneLeader(c', l, id);
      assert false;
    }
  }

  lemma NextKeepsNet(c: Cluster, e: Event, c': Cluster)
    requires Inv(c) && NetOk(c) && Next(c, e, c')
    ensures NetOk(c')
  {
    hide Step, Inv, Called, Enabled;
    NextIsAfter(c, e, c');
    match e {
      case Handle(id, command, elapsed) => HandleKeepsNet(c, id, command, elapsed, Effect(c, e), Gains(c, e));
      case Crash(_) =>
        assert forall l :: IsLeader(c', l) ==> IsLeader(c, l) && c'.nodes[l].term == c.nodes[l].term;
      case Report(_, _, _, _) => ReportKeepsNet(c, e, c');
    }
  }

  lemma ReportKeepsNet(c: Cluster, e: Event, c': Cluster)
    requires NetOk(c) && Next(c, e, c') && e.Report?
    ensures NetOk(c')
  {
    forall m | m in c'.net && Granting(m) ensures m.to.Peer? && Called(c'.net, m.to.id, m.command.term) {
      CalledStays(c.net, c'.net, m.to.id, m.command.term);
    }
    assert forall l :: IsLeader(c', l) ==> IsLeader(c, l) && c'.nodes[l].term == c.nodes[l].term;
  }

  lemma {:induction false} RunKeepsNet(cs: seq<Cluster>, i: nat)
    requires Run(cs) && i < |cs|
    ensures NetOk(cs[i])
    decreases i
  {
    hide Next, Called, Inv;
    if i > 0 {
      RunKeepsNet(cs, i - 1);
      assert Follows(cs[i - 1], cs[i - 1 + 1]);
      var e :| Next(cs[i - 1], e, cs[i]);
      RunKeepsInv(cs, i - 1);
      NextKeepsNet(cs[i - 1], e, cs[i]);
    }
  }

  /** In every execution each grant in the network answers a call of the
      candidate it goes to, made in a term no earlier than the voter's. */
  lemma GrantsAnswerCalls(c: Cluster, m: Message)
    requires Reachable(c) && m in c.net && m.command.VoteResponse? && m.command.granted
    ensures m.to.Peer?
    ensures exists call :: call in c.net && call.command.VoteRequest? && call.command.candidateId == m.to.id
                           && m.command.term <= call.command.lastTerm
  {
    var cs :| Run(cs) && cs[|cs| - 1] == c;
    RunKeepsNet(cs, |cs| - 1);
  }

  /** In every execution each leader has broadcast a heartbeat in its term. */
  lemma LeadersMakeThemselvesKnown(c: Cluster, l: NodeId)
    requires Reachable(c) && IsLeader(c, l)
    ensures Message(Peer(l), Peers, Heartbeat(c.nodes[l].term, 0, l)) in c.net
  {
    var cs :| Run(cs) && cs[|cs| - 1] == c;
    RunKeepsNet(cs, |cs| - 1);
  }
}
