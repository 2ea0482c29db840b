/** Where the accepted history comes from: nothing is accepted that no client asked for. */
module Validity {
  import opened RaftTypes
  import opened Chains
  import opened Nodes
  import opened Clusters
  import opened ElectionSafety

  /** The same request; on its way only the address for the answer is rewritten. */
  ghost predicate Same(a: ClientRequest, b: ClientRequest) {
    a.id == b.id && a.proposal == b.proposal
  }

  /** The requests a node holds back until it knows the leader. */
  function Waiting(n: Node): seq<ClientRequest> {
    match n.role
    case Follower(_, _, queued) => queued
    case Candidate(_, backlog) => backlog
    case Leader(_) => []
  }

  ghost predicate Carried(n: Node, command: Command, req: ClientRequest) {
    || (exists r :: r in Waiting(n) && Same(r, req))
    || (command.Request? && Same(command.request, req))
  }

  /** A node keeps and sends only requests it held or was given. */
  ghost predicate Carries(n: Node, command: Command, out: Out) {
    && (forall r :: r in Waiting(out.node) ==> Carried(n, command, r))
    && (forall m :: m in out.msgs && m.command.Request? ==> Carried(n, command, m.command.request))
  }

  lemma Held(n: Node, command: Command)
    ensures forall r :: r in Waiting(n) ==> Carried(n, command, r)
  {
    forall r | r in Waiting(n) ensures Carried(n, command, r) {
      assert Same(r, r);
    }
  }

  lemma ForwardsWaiting(n: Node, leader: NodeId, m: Message)
    requires n.role.Follower? && m in Forwards(n, leader, n.role.queued)
    ensures m.command.Request? && m.command.request in Waiting(n)
  {
  }

  lemma HeartbeatCarries(n: Node, leader: NodeId, term: Term, commit: BlockId, command: Command)
    requires n.role.Follower?
    ensures Carries(n, command, FollowerHeartbeat(n, leader, term, commit))
  {
    var out := FollowerHeartbeat(n, leader, term, commit);
    forall m | m in out.msgs && m.command.Request? ensures Carried(n, command, m.command.request) {
      assert m in Forwards(n, leader, n.role.queued);
      ForwardsWaiting(n, leader, m);
    }
  }

  lemma SeekCarries(n: Node, m: Node, command: Command)
    requires m.role.Candidate? && m.role.backlog == []
    ensures Carries(n, command, SeekElection(m))
  {
  }

  lemma FollowerCarries(n: Node, command: Command, elapsed: bool)
    requires n.role.Follower?
    ensures Carries(n, command, FollowerApply(n, command, elapsed))
  {
    hide SeekElection, FollowerHeartbeat, Carried, ExtendAll;
    Held(n, command);
    match command {
      case Heartbeat(term, commit, leader) => HeartbeatCarries(n, leader, term, commit, command);
      case Tick => SeekCarries(n, ToCandidate(n), command);
      case Timeout => SeekCarries(n, ToCandidate(n), command);
      case Request(req) => GivenCarried(n, command, req.(address := Peer(n.id)));
      case _ =>
    }
  }

  lemma GivenCarried(n: Node, command: Command, req: ClientRequest)
    requires command.Request? && Same(command.request, req)
    ensures Carried(n, command, req)
  {
  }

  lemma CandidateCarries(n: Node, command: Command, elapsed: bool)
    requires n.role.Candidate?
    ensures Carries(n, command, CandidateApply(n, command, elapsed))
  {
    hide SeekElection;
    Held(n, command);
    SeekCarries(n, ToCandidate(ToFollower(n.(votedFor := None))), command);
  }

  lemma LeaderCarries(n: Node, command: Command, elapsed: bool)
    requires n.role.Leader?
    ensures Carries(n, command, LeaderApply(n, command, elapsed))
  {
    ReplicateMail(n, n.peers);
    LeaderElectoral(n, command, elapsed);
    hide LeaderAppendResponse, LeaderRequest, ReplicateTo;
  }

  lemma StepCarries(n: Node, command: Command, elapsed: bool)
    ensures Carries(n, command, Step(n, command, elapsed))
  {
    hide Carries;
    match n.role
    case Follower(_, _, _) => FollowerCarries(n, command, elapsed);
    case Candidate(_, _) => CandidateCarries(n, command, elapsed);
    case Leader(_) => LeaderCarries(n, command, elapsed);
  }

  // ---- Runs ----

  /** Node `node` handles `req`, which has come from a client and not over the network. */
  ghost predicate Submits(c: Cluster, c': Cluster, node: NodeId, req: ClientRequest) {
    && req.address == Client
    && (exists elapsed :: Next(c, Handle(node, Request(req), elapsed), c'))
    && !exists m :: m in c.net && m.command == Request(req) && Deliverable(m, node)
  }

  ghost predicate SubmittedBetween(c: Cluster, c': Cluster, req: ClientRequest) {
    exists node, r :: Submits(c, c', node, r) && Same(r, req)
  }

  ghost predicate SubmittedAt(cs: seq<Cluster>, j: nat, req: ClientRequest) {
    j + 1 < |cs| && SubmittedBetween(cs[j], cs[j + 1], req)
  }

  ghost predicate Submitted(cs: seq<Cluster>, i: nat, req: ClientRequest) {
    exists j: nat :: j < i && SubmittedAt(cs, j, req)
  }

  /** Every request held, sent or accepted has been submitted. */
  ghost predicate Genuine(cs: seq<Cluster>, i: nat)
    requires i < |cs|
  {
    && (forall p, r :: p in cs[i].nodes && r in Waiting(cs[i].nodes[p]) ==> Submitted(cs, i, r))
    && (forall m :: m in cs[i].net && m.command.Request? ==> Submitted(cs, i, m.command.request))
    && (forall r :: r in cs[i].accepted ==> Submitted(cs, i, r))
  }

  lemma SameSubmitted(cs: seq<Cluster>, i: nat, a: ClientRequest, b: ClientRequest)
    requires Submitted(cs, i, a) && Same(a, b)
    ensures Submitted(cs, i, b) && Submitted(cs, i + 1, b)
  {
    var j: nat :| j < i && SubmittedAt(cs, j, a);
    assert SubmittedAt(cs, j, b);
  }

  lemma HandledSubmitted(cs: seq<Cluster>, i: nat, e: Event)
    requires i + 1 < |cs| && Genuine(cs, i) && Next(cs[i], e, cs[i + 1]) && e.Handle? && e.command.Request?
    ensures Submitted(cs, i + 1, e.command.request)
  {
    var req := e.command.request;
    if m :| m in cs[i].net && m.command == Request(req) && Deliverable(m, e.node) {
      SameSubmitted(cs, i, req, req);
    } else {
      assert Submits(cs[i], cs[i + 1], e.node, req);
      assert SubmittedAt(cs, i, req);
    }
  }

  lemma CarriedSubmitted(cs: seq<Cluster>, i: nat, e: Event, req: ClientRequest)
    requires i + 1 < |cs| && Genuine(cs, i) && Next(cs[i], e, cs[i + 1]) && e.Handle?
    requires Carried(cs[i].nodes[e.node], e.command, req)
    ensures Submitted(cs, i + 1, req)
  {
    hide Submitted, Step;
    if r :| r in Waiting(cs[i].nodes[e.node]) && Same(r, req) {
      SameSubmitted(cs, i, r, req);
    } else {
      HandledSubmitted(cs, i, e);
      SameSubmitted(cs, i + 1, e.command.request, req);
    }
  }

  lemma KeptSubmitted(cs: seq<Cluster>, i: nat)
    requires i + 1 < |cs| && Genuine(cs, i)
    ensures forall p, r :: p in cs[i].nodes && r in Waiting(cs[i].nodes[p]) ==> Submitted(cs, i + 1, r)
    ensures forall m :: m in cs[i].net && m.command.Request? ==> Submitted(cs, i + 1, m.command.request)
    ensures forall r :: r in cs[i].accepted ==> Submitted(cs, i + 1, r)
  {
    hide Waiting, Submitted;
    forall p, r | p in cs[i].nodes && r in Waiting(cs[i].nodes[p]) ensures Submitted(cs, i + 1, r) {
      SameSubmitted(cs, i, r, r);
    }
    forall m | m in cs[i].net && m.command.Request? ensures Submitted(cs, i + 1, m.command.request) {
      SameSubmitted(cs, i, m.command.request, m.command.request);
    }
    forall r | r in cs[i].accepted ensures Submitted(cs, i + 1, r) {
      SameSubmitted(cs, i, r, r);
    }
  }

  lemma HandleGenuine(cs: seq<Cluster>, i: nat, e: Event)
    requires i + 1 < |cs| && Genuine(cs, i) && Next(cs[i], e, cs[i + 1]) && e.Handle?
    ensures Genuine(cs, i + 1)
  {
    KeptSubmitted(cs, i);
    var c, c', n := cs[i], cs[i + 1], cs[i].nodes[e.node];
    var out := Step(n, e.command, e.elapsed);
    StepCarries(n, e.command, e.elapsed);
    hide Step, Submitted, Waiting, Carried, Same;
    forall r | r in Waiting(out.node) ensures Submitted(cs, i + 1, r) {
      CarriedSubmitted(cs, i, e, r);
    }
    forall m | m in out.msgs && m.command.Request? ensures Submitted(cs, i + 1, m.command.request) {
      CarriedSubmitted(cs, i, e, m.command.request);
    }
    forall r | r in Taken(n, e.command) ensures Submitted(cs, i + 1, r) {
      HandledSubmitted(cs, i, e);
    }
  }

  lemma SameWaiting(n: Node)
    ensures Waiting(Stop(n, Crashed)) == Waiting(n)
  {
  }

  lemma NextGenuine(cs: seq<Cluster>, i: nat, e: Event)
    requires i + 1 < |cs| && Genuine(cs, i) && Next(cs[i], e, cs[i + 1])
    ensures Genuine(cs, i + 1)
  {
    hide Step, Submitted, Waiting, Taken;
    if e.Handle? {
      HandleGenuine(cs, i, e);
    } else {
      KeptSubmitted(cs, i);
      SameWaiting(cs[i].nodes[e.node]);
    }
  }

  lemma {:induction false} RunGenuine(cs: seq<Cluster>, i: nat)
    requires Run(cs) && i < |cs|
    ensures Genuine(cs, i)
    decreases i
  {
    hide Next, Submitted;
    if i > 0 {
      RunGenuine(cs, i - 1);
      assert Follows(cs[i - 1], cs[i - 1 + 1]);
      var e :| Next(cs[i - 1], e, cs[i]);
      NextGenuine(cs, i - 1, e);
    }
  }

  /** Validity: whatever is accepted has the id and the proposal of a request
      that a client put to some node earlier in the run. */
  lemma AcceptedWereSubmitted(cs: seq<Cluster>, i: nat, k: nat) returns (j: nat, node: NodeId, req: ClientRequest)
    requires Run(cs) && i < |cs| && k < |cs[i].accepted|
    ensures j < i && Submits(cs[j], cs[j + 1], node, req)
    ensures req.id == cs[i].accepted[k].id && req.proposal == cs[i].accepted[k].proposal
  {
    hide Run, Submits, Waiting;
    RunGenuine(cs, i);
    var r := cs[i].accepted[k];
    assert r in cs[i].accepted;
    j :| j < i && SubmittedAt(cs, j, r);
    node, req :| Submits(cs[j], cs[j + 1], node, req) && Same(req, r);
  }
}
