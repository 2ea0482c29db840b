/** One execution followed step by step: among five nodes one is elected, while
    another grants its vote to a rival in a later term and then stops on the
    entries of the leader. */
module FiveNodeRun {
  import opened RaftTypes
  import opened Chains
  import opened Elections
  import opened ProgressTracking
  import opened Nodes
  import opened Clusters
  import opened Executions
  import opened ElectionSafety
  import opened Stops

  /** The other members, as node `id` is configured with them. */
  function Others(id: NodeId): seq<NodeId> {
    if id == 1 then [2, 3, 4, 5]
    else if id == 2 then [1, 3, 4, 5]
    else if id == 3 then [1, 2, 4, 5]
    else if id == 4 then [1, 2, 3, 5]
    else [1, 2, 3, 4]
  }

  const MEMBERS: set<NodeId> := {1, 2, 3, 4, 5}

  function Fresh(id: NodeId): Node {
    FreshNode(id, Others(id))
  }

  lemma OthersEnumerate(id: NodeId)
    requires id in MEMBERS
    ensures Enumerates(Others(id), MEMBERS - {id})
  {
  }

  /** Any membership, each member configured with the others, is a start. */
  lemma StartsReachable(members: set<NodeId>, c: Cluster)
    requires members != {} && c.nodes.Keys == members && c.net == {} && c.accepted == []
    requires forall id :: id in members ==> c.nodes[id] == Fresh(id) && Enumerates(Others(id), members - {id})
    ensures Reachable(c)
  {
    hide Enumerates, Others;
    assert forall id :: id in members ==> c.nodes[id].peers == Others(id);
    assert Init(c);
    assert Run([c]);
  }

  lemma Begin() returns (c: Cluster)
    ensures Reachable(c) && c.nodes.Keys == MEMBERS
    ensures forall id :: id in MEMBERS ==> c.nodes[id] == Fresh(id)
  {
    hide Enumerates, Others, Reachable;
    c := Cluster(map id | id in MEMBERS :: Fresh(id), {}, []);
    forall id | id in MEMBERS ensures Enumerates(Others(id), MEMBERS - {id}) {
      OthersEnumerate(id);
    }
    assert 1 in MEMBERS;
    StartsReachable(MEMBERS, c);
  }

  // ---- The steps ----

  /** Node `id` campaigning in `term` with its own vote alone. */
  function Alone(id: NodeId, term: Term): Node {
    Node(id, Others(id), term, Some(id), Candidate(Tally(Others(id) + [id], map[id := true]), []), FreshChain(), [], Running)
  }

  function Call(id: NodeId, term: Term): Command {
    VoteRequest(term, id, term, 0)
  }

  function Calls(id: NodeId, term: Term): Out {
    Out(Alone(id, term), seq(4, _ => Message(Peer(id), Peers, Call(id, term))))
  }

  lemma OneVote(t: Tally, id: NodeId)
    requires |t.voters| == 5 && t.votes == map[id := true]
    ensures Status(t) == Voting
  {
    assert Granted(t) == {id} && |t.votes| == 1;
  }

  lemma Seeks(n: Node, term: Term)
    requires n == Fresh(n.id).(term := term) && term < U64 - 1
    ensures FollowerTimeout(n) == Calls(n.id, term + 1)
  {
    var k := ToCandidate(n).(votedFor := Some(n.id), term := term + 1);
    OneVote(Voted(k.role.tally, n.id, true), n.id);
    assert seq(|n.peers|, _ => VoteCall(k)) == Calls(n.id, term + 1).msgs;
  }

  /** A timer runs out at a fresh node. */
  lemma Campaigns(id: NodeId)
    ensures Step(Fresh(id), Tick, true) == Calls(id, 1)
  {
    Seeks(Fresh(id), 0);
  }

  /** A timer runs out at a candidate. */
  lemma CampaignsAgain(id: NodeId)
    ensures Step(Alone(id, 1), Tick, true) == Calls(id, 2)
  {
    OneVote(Alone(id, 1).role.tally, id);
    Seeks(Fresh(id).(term := 1), 1);
  }

  function Grant(from: NodeId, term: Term): Command {
    VoteResponse(term, from, true)
  }

  /** Node `id` in `term` after granting its vote, with its answer. */
  function Granting(id: NodeId, term: Term, to: NodeId): Out {
    Out(Fresh(id).(term := term, votedFor := Some(to)), [Message(Peer(id), Peer(to), Grant(id, term))])
  }

  lemma Grants(id: NodeId, term: Term, to: NodeId, called: Term)
    requires term <= called
    ensures Step(Fresh(id).(term := term), Call(to, called), false) == Granting(id, term, to)
  {
  }

  /** A candidate that hears of a later term gives up. */
  lemma GivesUp(id: NodeId, rival: NodeId)
    ensures Step(Alone(id, 1), Call(rival, 2), false) == Out(Fresh(id).(term := 2), [])
  {
  }

  function Ahead(): Node {
    Alone(1, 1).(role := Candidate(Tally([2, 3, 4, 5, 1], map[1 := true, 3 := true]), []))
  }

  function Chosen(): Node {
    Alone(1, 1).(role := Leader(FreshProgress([2, 3, 4, 5, 1])))
  }

  lemma SecondVote()
    ensures Step(Alone(1, 1), Grant(3, 0), false) == Out(Ahead(), [])
  {
    var t := Voted(Alone(1, 1).role.tally, 3, true);
    assert Granted(t) == {1, 3} && |{1, 3}| == 2;
    assert t == Ahead().role.tally && Status(t) == Voting by {
      GrantedAtMostVotes(t);
      assert t.votes.Keys == {1, 3};
    }
  }

  lemma ThirdVote()
    ensures Step(Ahead(), Grant(5, 0), false).node == Chosen()
  {
    var t := Voted(Ahead().role.tally, 5, true);
    assert Granted(t) == {1, 3, 5} && |{1, 3, 5}| == 3;
    GrantedAtMostVotes(t);
    assert Status(t) == Elected;
    assert Voters(Ahead()) == [2, 3, 4, 5, 1];
  }

  lemma NothingToShip()
    ensures BatchScan(FreshChain(), NewProgress()).ok ==> Rest(BatchScan(FreshChain(), NewProgress()).blocks) == []
  {
    if BatchScan(FreshChain(), NewProgress()).ok {
      BatchSize(FreshChain(), NewProgress());
    }
  }

  lemma Offers()
    ensures Step(Chosen(), Tick, false).node == Chosen()
    ensures Message(Peer(1), Peer(2), AppendEntries(1, 1, [])) in Step(Chosen(), Tick, false).msgs
  {
    hide BatchScan;
    ReplicateStopsIff(Chosen(), Chosen().peers);
    NothingToShip();
  }

  lemma Collides(p: Node)
    requires p == Fresh(2).(term := 2, votedFor := Some(4))
    ensures Step(p, AppendEntries(1, 1, []), false) == Out(Stop(p, ConflictingLeader), [])
  {
  }

  // ---- The execution ----

  function Calling(id: NodeId, term: Term): Message {
    Message(Peer(id), Peers, Call(id, term))
  }

  lemma CallSent(id: NodeId, term: Term)
    ensures Calling(id, term) in Calls(id, term).msgs && Calls(id, term).node == Alone(id, term)
  {
    assert Calls(id, term).msgs[0] == Calling(id, term);
  }

  /** A fresh member hears the call of node 1 and votes for it. */
  lemma VotesForFirst(c: Cluster, id: NodeId) returns (c': Cluster)
    requires Reachable(c) && id in c.nodes && id != 1 && c.nodes[id] == Fresh(id) && Calling(1, 1) in c.net
    ensures Reachable(c') && c'.nodes == c.nodes[id := Granting(id, 0, 1).node] && c.net <= c'.net
    ensures Message(Peer(id), Peer(1), Grant(id, 0)) in c'.net
  {
    hide Step, Reachable, Others;
    Grants(id, 0, 1, 1);
    assert Fresh(id).(term := 0) == Fresh(id);
    c' := Receives(c, id, Calling(1, 1), Granting(id, 0, 1));
  }

  /** Node 1 is elected by 3 and 5. */
  lemma Elects() returns (c: Cluster)
    ensures Reachable(c) && c.nodes.Keys == MEMBERS && c.nodes[1] == Chosen()
    ensures c.nodes[2] == Fresh(2) && c.nodes[4] == Fresh(4)
  {
    hide Step, Reachable, Others;
    c := Begin();
    Campaigns(1);
    CallSent(1, 1);
    SecondVote();
    ThirdVote();
    c := Ticks(c, 1, true, Calls(1, 1));
    c := VotesForFirst(c, 3);
    c := VotesForFirst(c, 5);
    var fifth := Message(Peer(5), Peer(1), Grant(5, 0));
    c := Receives(c, 1, Message(Peer(3), Peer(1), Grant(3, 0)), Out(Ahead(), []));
    c := Receives(c, 1, fifth, Step(Ahead(), Grant(5, 0), false));
  }

  /** Node 2 campaigns, gives way to node 4 in its second term and votes for it. */
  lemma Defects() returns (c: Cluster)
    ensures Reachable(c) && c.nodes.Keys == MEMBERS && c.nodes[1] == Chosen()
    ensures c.nodes[2] == Granting(2, 2, 4).node
  {
    hide Step, Reachable, Others, Chosen;
    c := Elects();
    Campaigns(2);
    Campaigns(4);
    CampaignsAgain(4);
    CallSent(4, 2);
    GivesUp(2, 4);
    Grants(2, 2, 4, 2);
    c := Ticks(c, 2, true, Calls(2, 1));
    c := Ticks(c, 4, true, Calls(4, 1));
    c := Ticks(c, 4, true, Calls(4, 2));
    c := Receives(c, 2, Calling(4, 2), Out(Fresh(2).(term := 2), []));
    c := Receives(c, 2, Calling(4, 2), Granting(2, 2, 4));
  }

  /** A follower can stop on the entries of the only leader there ever is. */
  lemma ConflictReachable() returns (c: Cluster)
    ensures Reachable(c) && c.nodes.Keys == MEMBERS && IsLeader(c, 1)
    ensures c.nodes[2].health == Stopped(ConflictingLeader)
  {
    hide Step, Reachable, Others;
    c := Defects();
    Offers();
    Collides(c.nodes[2]);
    c := Ticks(c, 1, false, Step(Chosen(), Tick, false));
    c := Receives(c, 2, Message(Peer(1), Peer(2), AppendEntries(1, 1, [])), Out(Stop(c.nodes[2], ConflictingLeader), []));
  }
}
