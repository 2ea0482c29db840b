/** Election safety. The argument does not use terms: a peer grants at most
    once ever, because a follower that has voted stays a follower that has
    voted, and a leader stays a leader. */
module ElectionSafety {
  import opened RaftTypes
  import opened Chains
  import opened Elections
  import opened Nodes
  import opened Clusters

  // ---- One node ----

  ghost predicate HasVoted(n: Node) {
    n.role.Follower? && n.votedFor.Some?
  }

  /** A candidate has voted for itself and its tally is still open. */
  ghost predicate CandidateOk(n: Node) {
    n.role.Candidate? ==>
      n.votedFor == Some(n.id) && n.role.tally.voters == Voters(n) && Open(n.role.tally)
  }

  ghost predicate Granting(m: Message) {
    m.command.VoteResponse? && m.command.granted
  }

  function GrantMail(voter: NodeId, candidate: NodeId, term: Term): Message {
    Message(Peer(voter), Peer(candidate), VoteResponse(term, voter, true))
  }

  /** A vote the node may count after handling `command`. */
  ghost predicate Countable(n: Node, command: Command, q: NodeId) {
    || q == n.id
    || (n.role.Candidate? && q in Granted(n.role.tally))
    || (command.VoteResponse? && command.granted && command.from == q)
  }

  ghost predicate Winning(n: Node, command: Command, voters: set<NodeId>) {
    2 * |voters| > |n.peers| + 1 && forall q :: q in voters ==> Countable(n, command, q)
  }

  /** What handling a command may do to a node's part in elections. */
  ghost predicate Electoral(n: Node, command: Command, out: Out) {
    var n' := out.node;
    && n'.id == n.id && n'.peers == n.peers
    && (n.role.Leader? ==> n'.role.Leader?)
    && (HasVoted(n) ==> HasVoted(n'))
    && (CandidateOk(n) ==> CandidateOk(n'))
    && (forall m :: m in out.msgs && Granting(m) ==>
                      && n.role.Follower? && !HasVoted(n) && HasVoted(n')
                      && out.msgs == [m] && m.to.Peer? && m == GrantMail(n.id, m.to.id, m.command.term))
    && (n'.role.Candidate? ==> forall q :: q in Granted(n'.role.tally) ==> Countable(n, command, q))
    && (n'.role.Leader? && !n.role.Leader? && CandidateOk(n) ==> exists voters :: Winning(n, command, voters))
    && (n.health.Running? && CandidateOk(n) ==> n'.health != Stopped(ElectedWhileVoting))
  }

  lemma VoteResponseElectoral(n: Node, command: Command, from: NodeId, granted: bool)
    requires n.role.Candidate? && (granted ==> Countable(n, command, from))
    requires n.role.tally.voters == Voters(n) && n.votedFor == Some(n.id)
    requires Open(n.role.tally) || n.role.tally.votes == map[]
    ensures Electoral(n, command, CandidateVoteResponse(n, from, granted))
  {
    VoteFromOpen(n.role.tally, from, granted);
    TallyCountable(n, command, from, granted);
    hide Countable, Granted;
  }

  /** The votes in the tally count, and with an elected outcome they win. */
  lemma TallyCountable(n: Node, command: Command, from: NodeId, granted: bool)
    requires n.role.Candidate? && (granted ==> Countable(n, command, from)) && n.role.tally.voters == Voters(n)
    ensures var t' := Voted(n.role.tally, from, granted);
            && (forall q :: q in Granted(t') ==> Countable(n, command, q))
            && (Status(t').Elected? ==> exists voters :: Winning(n, command, voters))
  {
    var t' := Voted(n.role.tally, from, granted);
    assert forall q :: q in Granted(t') ==> q in Granted(n.role.tally) || (granted && q == from);
    var voters := Granted(t') + {n.id};
    SubsetSize(Granted(t'), voters);
    SubsetSize({n.id}, voters);
    if Status(t').Elected? {
      assert Winning(n, command, voters);
    }
  }

  /** A fresh candidacy, seen from the node it started at. */
  lemma SeekElectoral(n: Node, command: Command, m: Node)
    requires m.role == Candidate(Tally(Voters(m), map[]), [])
    requires m.id == n.id && m.peers == n.peers && m.health == n.health && !n.role.Leader? && !HasVoted(n)
    ensures Electoral(n, command, SeekElection(m))
  {
    var k := m.(votedFor := Some(m.id), term := (m.term + 1) % U64);
    FirstVote(k);
    var out := SeekElection(m);
    if out.node.role.Leader? {
      var voters :| Winning(k, Tick, voters);
      assert Winning(n, command, voters);
    }
  }

  /** The candidate's own vote, counted first. */
  lemma FirstVote(k: Node)
    requires k.role == Candidate(Tally(Voters(k), map[]), []) && k.votedFor == Some(k.id)
    ensures var n' := CandidateVoteResponse(k, k.id, true).node;
            && CandidateOk(n') && n'.health == k.health && n'.id == k.id && n'.peers == k.peers
            && (n'.role.Leader? ==> exists voters :: Winning(k, Tick, voters))
            && (n'.role.Candidate? ==> Granted(n'.role.tally) == {k.id})
            && !n'.role.Follower?
  {
    var t' := Voted(k.role.tally, k.id, true);
    VoteFromOpen(k.role.tally, k.id, true);
    assert Granted(t') == {k.id} && Declined(t') == {};
    assert Winning(k, Tick, Granted(t')) || Status(t') != Elected;
  }

  lemma FollowerElectoral(n: Node, command: Command, elapsed: bool)
    requires n.role.Follower?
    ensures Electoral(n, command, FollowerApply(n, command, elapsed))
  {
    if (command.Timeout? || (command.Tick? && elapsed)) && n.votedFor.None? {
      SeekElectoral(n, command, ToCandidate(n));
    } else {
      assert Quiet(n, FollowerApply(n, command, elapsed)) || command.VoteRequest?;
    }
  }

  /** No part in an election: no role but the follower's is taken up and no vote granted. */
  ghost predicate Quiet(n: Node, out: Out) {
    && out.node.role.Follower? && (n.votedFor.Some? ==> out.node.votedFor.Some?)
    && forall m :: m in out.msgs ==> !Granting(m)
  }

  lemma CandidateElectoral(n: Node, command: Command, elapsed: bool)
    requires n.role.Candidate? && CandidateOk(n)
    ensures Electoral(n, command, CandidateApply(n, command, elapsed))
  {
    if command.VoteResponse? {
      VoteResponseElectoral(n, command, command.from, command.granted);
    } else if command.Tick? && elapsed {
      SeekElectoral(n, command, ToCandidate(ToFollower(n.(votedFor := None))));
    }
  }

  lemma LeaderElectoral(n: Node, command: Command, elapsed: bool)
    requires n.role.Leader?
    ensures Electoral(n, command, LeaderApply(n, command, elapsed))
  {
    ReplicateMail(n, n.peers);
    match command {
      case AppendResponse(node, _, head, _) => AckKeepsLeading(n, node, head);
      case Request(req) => RequestKeepsLeading(n, req);
      case _ =>
    }
    hide LeaderAppendResponse, LeaderRequest, ReplicateTo;
  }

  /** Still the same leader, though perhaps stopped. */
  ghost predicate Leads(n: Node, n': Node) {
    && n'.role.Leader? && n'.id == n.id && n'.peers == n.peers
    && (n.health.Running? ==> n'.health != Stopped(ElectedWhileVoting))
  }

  lemma AckKeepsLeading(n: Node, node: NodeId, head: BlockId)
    requires n.role.Leader?
    ensures Leads(n, LeaderAppendResponse(n, node, head))
  {
  }

  lemma RequestKeepsLeading(n: Node, req: ClientRequest)
    requires n.role.Leader?
    ensures Leads(n, LeaderRequest(n, req))
  {
    hide LeaderAppendResponse;
    var r := Append(n.chain, req.proposal);
    AckKeepsLeading(n.(chain := r.chain, log := n.log + [Notify(req.id, req.address, r.chain.head)]), n.id, r.chain.head);
  }

  /** Replication sends AppendEntries to its targets and nothing else. */
  lemma {:induction false} ReplicateMail(n: Node, targets: seq<NodeId>)
    requires n.role.Leader?
    ensures forall m :: m in ReplicateTo(n, targets).msgs ==> m.command.AppendEntries?
    decreases targets
  {
    if targets != [] {
      ReplicateMail(n, targets[1..]);
    }
  }

  lemma StepElectoral(n: Node, command: Command, elapsed: bool)
    requires CandidateOk(n)
    ensures Electoral(n, command, Step(n, command, elapsed))
  {
    match n.role
    case Follower(_, _, _) => FollowerElectoral(n, command, elapsed);
    case Candidate(_, _) => CandidateElectoral(n, command, elapsed);
    case Leader(_) => LeaderElectoral(n, command, elapsed);
  }

  // ---- The cluster ----

  ghost predicate GrantSent(net: set<Message>, voter: NodeId, candidate: NodeId) {
    exists t: Term :: GrantMail(voter, candidate, t) in net
  }

  ghost predicate Backs(net: set<Message>, voter: NodeId, candidate: NodeId) {
    voter == candidate || GrantSent(net, voter, candidate)
  }

  /** A grant in the network: its voter is a follower that has voted. */
  ghost predicate GrantOk(c: Cluster, m: Message)
    requires Granting(m)
  {
    && m.to.Peer? && m == GrantMail(m.command.from, m.to.id, m.command.term)
    && m.command.from in c.nodes && HasVoted(c.nodes[m.command.from])
  }

  ghost predicate BallotsOk(c: Cluster, id: NodeId)
    requires id in c.nodes
  {
    c.nodes[id].role.Candidate? ==>
      forall q :: q in Granted(c.nodes[id].role.tally) ==> q in c.nodes && Backs(c.net, q, id)
  }

  ghost predicate ElectedBy(c: Cluster, id: NodeId, voters: set<NodeId>) {
    && voters <= c.nodes.Keys && 2 * |voters| > |c.nodes|
    && forall q :: q in voters ==> Backs(c.net, q, id)
  }

  ghost predicate IsLeader(c: Cluster, id: NodeId) {
    id in c.nodes && c.nodes[id].role.Leader?
  }

  ghost predicate ElectionInv(c: Cluster) {
    && Configured(c)
    && (forall id :: id in c.nodes ==> CandidateOk(c.nodes[id]))
    && (forall id :: id in c.nodes ==> BallotsOk(c, id))
    && (forall m :: m in c.net && Granting(m) ==> GrantOk(c, m))
    && (forall m, m' :: m in c.net && m' in c.net && Granting(m) && Granting(m') && m.command.from == m'.command.from ==>
                          m.to == m'.to)
    && (forall id :: IsLeader(c, id) ==> exists voters :: ElectedBy(c, id, voters))
  }

  /** At most one node is leader: two electorates would share a voter, and
      that voter has granted at most once and, having granted, does not lead. */
  lemma OneLeader(c: Cluster, a: NodeId, b: NodeId)
    requires ElectionInv(c) && IsLeader(c, a) && IsLeader(c, b)
    ensures a == b
  {
    var va :| ElectedBy(c, a, va);
    var vb :| ElectedBy(c, b, vb);
    QuorumsMeet(c.nodes.Keys, va, vb);
    var z :| z in va && z in vb;
    if z != a {
      var t: Term :| GrantMail(z, a, t) in c.net;
      assert Granting(GrantMail(z, a, t));
      if z != b {
        var t': Term :| GrantMail(z, b, t') in c.net;
        assert Granting(GrantMail(z, b, t'));
      }
    } else if z != b {
      var t': Term :| GrantMail(z, b, t') in c.net;
      assert Granting(GrantMail(z, b, t'));
    }
  }

  /** The cluster after one node has handled a command. */
  ghost function After(c: Cluster, id: NodeId, out: Out, taken: seq<ClientRequest>): Cluster {
    Cluster(c.nodes[id := out.node], c.net + (set m | m in out.msgs), c.accepted + taken)
  }

  lemma VoteCounts(c: Cluster, id: NodeId, command: Command, q: NodeId)
    requires ElectionInv(c) && id in c.nodes && Enabled(c, id, command)
    requires Countable(c.nodes[id], command, q)
    ensures q in c.nodes && Backs(c.net, q, id)
  {
    if q != id && command.VoteResponse? && command.granted && command.from == q {
      var m :| m in c.net && m.command == command && Deliverable(m, id);
      assert GrantMail(q, id, m.command.term) in c.net;
    }
  }

  lemma BallotsStep(c: Cluster, id: NodeId, command: Command, out: Out, taken: seq<ClientRequest>, other: NodeId)
    requires ElectionInv(c) && id in c.nodes && Enabled(c, id, command) && Electoral(c.nodes[id], command, out)
    requires other in c.nodes
    ensures BallotsOk(After(c, id, out, taken), other)
  {
    var c' := After(c, id, out, taken);
    if c'.nodes[other].role.Candidate? {
      forall q | q in Granted(c'.nodes[other].role.tally)
        ensures q in c'.nodes && Backs(c'.net, q, other)
      {
        if other == id {
          VoteCounts(c, id, command, q);
        }
        BacksGrows(c.net, c'.net, q, other);
      }
    }
  }

  lemma BacksGrows(net: set<Message>, net': set<Message>, q: NodeId, id: NodeId)
    requires net <= net' && Backs(net, q, id)
    ensures Backs(net', q, id)
  {
    if q != id {
      var t: Term :| GrantMail(q, id, t) in net;
      assert GrantMail(q, id, t) in net';
    }
  }

  lemma WinnersStep(c: Cluster, id: NodeId, command: Command, out: Out, taken: seq<ClientRequest>, other: NodeId)
    requires ElectionInv(c) && id in c.nodes && Enabled(c, id, command) && Electoral(c.nodes[id], command, out)
    requires IsLeader(After(c, id, out, taken), other)
    ensures exists voters :: ElectedBy(After(c, id, out, taken), other, voters)
  {
    var c' := After(c, id, out, taken);
    assert c'.nodes.Keys == c.nodes.Keys;
    var voters: set<NodeId>;
    if IsLeader(c, other) {
      voters :| ElectedBy(c, other, voters);
    } else {
      voters :| Winning(c.nodes[id], command, voters);
      EnumerationLength(c.nodes[id].peers, c.nodes.Keys - {id});
      forall q | q in voters
        ensures q in c.nodes && Backs(c.net, q, id)
      {
        VoteCounts(c, id, command, q);
      }
    }
    forall q | q in voters
      ensures Backs(c'.net, q, other)
    {
      BacksGrows(c.net, c'.net, q, other);
    }
    assert ElectedBy(c', other, voters);
  }

  lemma GrantsStep(c: Cluster, id: NodeId, command: Command, out: Out, taken: seq<ClientRequest>, m: Message)
    requires ElectionInv(c) && id in c.nodes && Electoral(c.nodes[id], command, out)
    requires m in After(c, id, out, taken).net && Granting(m)
    ensures GrantOk(After(c, id, out, taken), m)
  {
  }

  lemma GrantsAgree(c: Cluster, id: NodeId, command: Command, out: Out, taken: seq<ClientRequest>, m: Message, m': Message)
    requires ElectionInv(c) && id in c.nodes && Electoral(c.nodes[id], command, out)
    requires m in After(c, id, out, taken).net && m' in After(c, id, out, taken).net
    requires Granting(m) && Granting(m') && m.command.from == m'.command.from
    ensures m.to == m'.to
  {
  }

  lemma HandleKeepsElectionInv(c: Cluster, id: NodeId, command: Command, out: Out, taken: seq<ClientRequest>)
    requires ElectionInv(c) && id in c.nodes && Enabled(c, id, command) && Electoral(c.nodes[id], command, out)
    ensures ElectionInv(After(c, id, out, taken))
  {
    var c' := After(c, id, out, taken);
    assert c'.nodes.Keys == c.nodes.Keys;
    forall other | other in c.nodes ensures BallotsOk(c', other) {
      BallotsStep(c, id, command, out, taken, other);
    }
    forall other | IsLeader(c', other) ensures exists voters :: ElectedBy(c', other, voters) {
      WinnersStep(c, id, command, out, taken, other);
    }
    forall m | m in c'.net && Granting(m) ensures GrantOk(c', m) {
      GrantsStep(c, id, command, out, taken, m);
    }
    forall m, m' | m in c'.net && m' in c'.net && Granting(m) && Granting(m') && m.command.from == m'.command.from
      ensures m.to == m'.to
    {
      GrantsAgree(c, id, command, out, taken, m, m');
    }
  }

  /** What an event makes of the node it happens at; a crash and a driver's
      answer are told as the handling of an idle command. */
  ghost function Cause(e: Event): Command {
    if e.Handle? then e.command else Tick
  }

  ghost function Effect(c: Cluster, e: Event): Out
    requires e.node in c.nodes
  {
    match e
    case Handle(id, command, elapsed) => Step(c.nodes[id], command, elapsed)
    case Crash(id) => Out(Stop(c.nodes[id], Crashed), [])
    case Report(id, to, req, reply) => Out(c.nodes[id], [Message(Peer(id), Peer(to), Response(req, reply))])
  }

  ghost function Gains(c: Cluster, e: Event): seq<ClientRequest>
    requires e.node in c.nodes
  {
    if e.Handle? then Taken(c.nodes[e.node], e.command) else []
  }

  lemma NextIsAfter(c: Cluster, e: Event, c': Cluster)
    requires Next(c, e, c')
    ensures c' == After(c, e.node, Effect(c, e), Gains(c, e))
    ensures Enabled(c, e.node, Cause(e))
  {
    if e.Report? {
      assert c.nodes[e.node := c.nodes[e.node]] == c.nodes;
      assert (set m | m in Effect(c, e).msgs) == {Message(Peer(e.node), Peer(e.to), Response(e.id, e.reply))};
    }
  }

  lemma EffectElectoral(c: Cluster, e: Event)
    requires e.node in c.nodes && CandidateOk(c.nodes[e.node])
    ensures Electoral(c.nodes[e.node], Cause(e), Effect(c, e))
  {
    match e
    case Handle(id, command, elapsed) => StepElectoral(c.nodes[id], command, elapsed);
    case Crash(id) =>
    case Report(id, _, _, _) =>
  }

  lemma NextKeepsElectionInv(c: Cluster, e: Event, c': Cluster)
    requires ElectionInv(c) && Next(c, e, c')
    ensures ElectionInv(c')
  {
    NextIsAfter(c, e, c');
    EffectElectoral(c, e);
    HandleKeepsElectionInv(c, e.node, Cause(e), Effect(c, e), Gains(c, e));
  }
}
