/** Executions of a pair of nodes followed step by step. In one the pair elects
    a leader, replicates and commits one request, and the leader then stops. In
    the other the leader hears from nobody and takes requests until all ids
    are used up. */
module TwoNodeRun {
  import opened RaftTypes
  import opened Chains
  import opened Elections
  import opened ProgressTracking
  import opened Nodes
  import opened Clusters
  import opened Executions
  import opened ElectionSafety
  import opened Replication
  import opened ReplicationSteps
  import opened CommitKeys
  import opened Stops

  function Pair(a: Node, b: Node): map<NodeId, Node> {
    map[1 := a, 2 := b]
  }

  const CALL := VoteRequest(1, 1, 1, 0)
  const GRANT := VoteResponse(0, 2, true)
  const ACK := AppendResponse(2, 0, 1, true)

  function Campaigning(): Node {
    Node(1, [2], 1, Some(1), Candidate(Tally([2, 1], map[1 := true]), []), FreshChain(), [], Running)
  }

  function Voter(): Node {
    FreshNode(2, [1]).(votedFor := Some(1))
  }

  function Elect(): Node {
    Campaigning().(role := Leader(FreshProgress([2, 1])))
  }

  lemma Campaign()
    ensures Step(FreshNode(1, [2]), Tick, true) == Out(Campaigning(), [Message(Peer(1), Peers, CALL)])
  {
    var t := Tally([2, 1], map[1 := true]);
    assert Granted(t) == {1} && |t.votes| == 1;
    assert Status(t) == Voting;
    var k := ToCandidate(FreshNode(1, [2])).(votedFor := Some(1), term := 1);
    assert Voted(k.role.tally, 1, true) == t;
    assert seq(|[2]|, _ => VoteCall(k)) == [VoteCall(k)];
  }

  lemma Vote()
    ensures Step(FreshNode(2, [1]), CALL, false) == Out(Voter(), [Message(Peer(2), Peer(1), GRANT)])
  {
  }

  lemma Win()
    ensures Step(Campaigning(), GRANT, false).node == Elect()
  {
    var t := Tally([2, 1], map[1 := true, 2 := true]);
    assert Voted(Campaigning().role.tally, 2, true) == t;
    assert Granted(t) == {1, 2};
    assert |{1, 2}| == 2;
    GrantedAtMostVotes(t);
    assert Status(t) == Elected;
    assert Voters(Campaigning().(role := Candidate(t, []))) == [2, 1];
  }

  function FirstBlock(req: ClientRequest): Block {
    Block(1, 0, req.proposal)
  }

  function OneBlockChain(req: ClientRequest): ChainState {
    ChainState(map[0 := GENESIS, 1 := FirstBlock(req)], None, 2, 0, 1)
  }

  function Appended(req: ClientRequest): Node {
    Elect().(chain := OneBlockChain(req), log := [Notify(req.id, req.address, 1)],
             role := Leader(map[1 := Replicate([], false, 1), 2 := Probe(false, false, 0)]))
  }

  lemma PairQuorum(p: Progress, v: BlockId, w: BlockId)
    requires p.Keys == {1, 2} && p[1].head == v && p[2].head == w && w <= v
    ensures Heads(p) != map[] && QuorumIndex(Heads(p)) == w
  {
    var heads := Heads(p);
    assert 1 in heads && heads.Keys == {1, 2};
    assert |heads| == |{1, 2}| == 2;
    assert Reached(heads, w) == {1, 2};
    forall u: BlockId | u > w ensures !MajorityReached(heads, u) {
      SubsetSize(Reached(heads, u), {1});
    }
    QuorumIndexUnique(heads, w);
  }

  lemma Take(req: ClientRequest)
    ensures Step(Elect(), Request(req), false).node == Appended(req)
    ensures Taken(Elect(), Request(req)) == [req]
  {
    hide Drain, Scan, ScanThrough, QuorumIndex;
    var p := FreshProgress([2, 1]);
    var p' := AdvanceNode(p, Ack(1, 1));
    assert p' == map[1 := Replicate([], false, 1), 2 := Probe(false, false, 0)];
    PairQuorum(p', 1, 0);
    hide FreshProgress, Heads;
    assert Append(FreshChain(), req.proposal) == ChainResult(OneBlockChain(req), true);
  }

  lemma ScanTwo(ch: ChainState)
    requires 0 in ch.blocks && 1 in ch.blocks
    ensures |Scan(ch, 0, U64)| >= 2
    ensures Scan(ch, 0, U64)[..2] == [BlockEntry(ch.blocks[0]), BlockEntry(ch.blocks[1])]
  {
    assert Scan(ch, 0, U64) == [BlockEntry(ch.blocks[0])] + Scan(ch, 1, U64);
    assert Scan(ch, 1, U64) == [BlockEntry(ch.blocks[1])] + Scan(ch, 2, U64);
  }

  lemma DrainTwo(a: Block, b: Block)
    ensures Drain([BlockEntry(a), BlockEntry(b)]) == Yield([a, b], true)
  {
    assert [BlockEntry(b)][1..] == [];
    assert Drain([BlockEntry(b)]) == Yield([b], true);
    assert [BlockEntry(a), BlockEntry(b)][1..] == [BlockEntry(b)];
  }

  lemma ShipBatch(req: ClientRequest)
    ensures BatchScan(OneBlockChain(req), Probe(false, false, 0)) == Yield([GENESIS, FirstBlock(req)], true)
  {
    ScanTwo(OneBlockChain(req));
    DrainTwo(GENESIS, FirstBlock(req));
  }

  lemma Ship(req: ClientRequest)
    ensures Step(Appended(req), Tick, false) ==
            Out(Appended(req), [Message(Peer(1), Peer(2), AppendEntries(1, 1, [FirstBlock(req)]))])
  {
    hide BatchScan;
    var n := Appended(req);
    ShipBatch(req);
    assert ReplicateTo(n, [2][1..]) == Sent([], true);
    assert ReplicateTo(n, [2]) == Sent([Mail(n, Peer(2), AppendEntries(1, 1, [FirstBlock(req)]))], true);
  }

  function Stored2(req: ClientRequest): Node {
    Voter().(chain := OneBlockChain(req).(idGen := 1))
  }

  lemma Store(req: ClientRequest)
    ensures Step(Voter(), AppendEntries(1, 1, [FirstBlock(req)]), false) ==
            Out(Stored2(req), [Message(Peer(2), Peer(1), ACK)])
  {
    var bs := [FirstBlock(req)];
    assert bs[1..] == [];
    assert ExtendAll(FreshChain(), bs) == ChainResult(Stored2(req).chain, true);
  }

  function Committed(req: ClientRequest): Node {
    Appended(req).(chain := OneBlockChain(req).(commitKey := Some(1), commit := 1),
                   log := [Notify(req.id, req.address, 1), Apply(FirstBlock(req))],
                   role := Leader(map[1 := Replicate([], false, 1), 2 := Replicate([], false, 1)]))
  }

  lemma SettleScan(ch: ChainState, req: ClientRequest)
    requires ch == Committed(req).chain
    ensures Drain(ScanThrough(ch, 0, 1)) == Yield([GENESIS, FirstBlock(req)], true)
  {
    assert Scan(ch, 0, 1) == [BlockEntry(GENESIS)];
    assert ScanThrough(ch, 0, 1) == [BlockEntry(GENESIS), BlockEntry(FirstBlock(req))];
    DrainTwo(GENESIS, FirstBlock(req));
  }

  lemma Settle(req: ClientRequest)
    ensures Step(Appended(req), ACK, false) == Out(Committed(req), [])
  {
    hide Drain, Scan, ScanThrough, QuorumIndex;
    var n := Appended(req);
    var p' := AdvanceNode(n.role.progress, Ack(2, 1));
    assert p' == map[1 := Replicate([], false, 1), 2 := Replicate([], false, 1)];
    PairQuorum(p', 1, 1);
    var ch := Commit(n.chain, 1).chain;
    SettleScan(ch, req);
    assert Rest([GENESIS, FirstBlock(req)]) == [FirstBlock(req)];
    assert Applies([FirstBlock(req)]) == [Apply(FirstBlock(req))];
  }

  function State(a: Node, b: Node, net: set<Message>, accepted: seq<ClientRequest>): Cluster {
    Cluster(Pair(a, b), net, accepted)
  }

  lemma StartReachable()
    ensures Reachable(State(FreshNode(1, [2]), FreshNode(2, [1]), {}, []))
  {
    var c := State(FreshNode(1, [2]), FreshNode(2, [1]), {}, []);
    assert c.nodes.Keys - {1} == {2} && c.nodes.Keys - {2} == {1};
    assert Init(c);
    assert Run([c]);
  }

  /** Node 1 handles a command, and the pair moves on. */
  lemma FirstMoves(a: Node, b: Node, net: set<Message>, accepted: seq<ClientRequest>, command: Command, elapsed: bool,
                   accepted': seq<ClientRequest>) returns (net': set<Message>)
    requires Reachable(State(a, b, net, accepted)) && a.health.Running? && accepted' == accepted + Taken(a, command)
    requires Enabled(State(a, b, net, accepted), 1, command)
    ensures forall m :: m in net' <==> m in net || m in Step(a, command, elapsed).msgs
    ensures Reachable(State(Step(a, command, elapsed).node, b, net', accepted'))
  {
    hide Step, Taken, Reachable, Enabled;
    var c := State(a, b, net, accepted);
    var out := Step(a, command, elapsed);
    net' := net + set m | m in out.msgs;
    var c' := State(out.node, b, net', accepted');
    assert c.nodes[1 := out.node] == c'.nodes;
    ReachableStep(c, Handle(1, command, elapsed), c');
  }

  lemma SecondMoves(a: Node, b: Node, net: set<Message>, accepted: seq<ClientRequest>, command: Command, elapsed: bool)
      returns (net': set<Message>)
    requires Reachable(State(a, b, net, accepted)) && b.health.Running? && !b.role.Leader?
    requires Enabled(State(a, b, net, accepted), 2, command)
    ensures forall m :: m in net' <==> m in net || m in Step(b, command, elapsed).msgs
    ensures Reachable(State(a, Step(b, command, elapsed).node, net', accepted))
  {
    hide Step, Reachable, Enabled, Append;
    var c := State(a, b, net, accepted);
    var out := Step(b, command, elapsed);
    net' := net + set m | m in out.msgs;
    var c' := State(a, out.node, net', accepted);
    assert c.nodes[2 := out.node] == c'.nodes && c.accepted + [] == accepted;
    ReachableStep(c, Handle(2, command, elapsed), c');
  }

  lemma AllRunning(req: ClientRequest)
    ensures Campaigning().health.Running? && Elect().health.Running? && Appended(req).health.Running?
    ensures Voter().health.Running? && Voter().role.Follower?
  {
  }

  lemma ElectPair() returns (net: set<Message>)
    ensures Reachable(State(Elect(), Voter(), net, []))
  {
    hide Step, Reachable, Taken, Campaigning, Voter, Elect;
    Campaign();
    Vote();
    Win();
    AllRunning(ClientRequest(0, Client, []));
    StartReachable();
    NothingTaken(FreshNode(1, [2]), Tick);
    net := FirstMoves(FreshNode(1, [2]), FreshNode(2, [1]), {}, [], Tick, true, []);
    assert Message(Peer(1), Peers, CALL) in net;
    net := SecondMoves(Campaigning(), FreshNode(2, [1]), net, [], CALL, false);
    assert Message(Peer(2), Peer(1), GRANT) in net;
    NothingTaken(Campaigning(), GRANT);
    net := FirstMoves(Campaigning(), Voter(), net, [], GRANT, false, []);
  }

  lemma ShipPair(req: ClientRequest) returns (net: set<Message>)
    requires req.address == Client
    ensures Reachable(State(Appended(req), Voter(), net, [req]))
    ensures Message(Peer(1), Peer(2), AppendEntries(1, 1, [FirstBlock(req)])) in net
  {
    hide Step, Reachable, Taken, Voter, Elect, Appended;
    Take(req);
    Ship(req);
    AllRunning(req);
    net := ElectPair();
    net := FirstMoves(Elect(), Voter(), net, [], Request(req), false, [req]);
    NothingTaken(Appended(req), Tick);
    net := FirstMoves(Appended(req), Voter(), net, [req], Tick, false, [req]);
  }

  lemma SettlePair(req: ClientRequest) returns (net: set<Message>)
    requires req.address == Client
    ensures Reachable(State(Committed(req), Stored2(req), net, [req]))
  {
    hide Step, Reachable, Taken, Voter, Appended, Stored2, Committed;
    Store(req);
    Settle(req);
    AllRunning(req);
    net := ShipPair(req);
    var entries := AppendEntries(1, 1, [FirstBlock(req)]);
    net := SecondMoves(Appended(req), Voter(), net, [req], entries, false);
    assert Message(Peer(2), Peer(1), ACK) in net;
    NothingTaken(Appended(req), ACK);
    net := FirstMoves(Appended(req), Stored2(req), net, [req], ACK, false, [req]);
  }

  /** A pair that has elected, replicated and committed is reachable, and the
      next tick of its leader decodes the commit pointer as a block. */
  lemma CommitStopsPair(req: ClientRequest) returns (c: Cluster)
    requires req.address == Client
    ensures Reachable(c) && c.nodes.Keys == {1, 2} && c.accepted == [req]
    ensures IsLeader(c, 1) && c.nodes[1].health.Running? && c.nodes[1].chain.commit == 1
    ensures Step(c.nodes[1], Tick, false).node.health.Stopped?
  {
    hide Step, Reachable, Stored2, Committed;
    var net := SettlePair(req);
    c := State(Committed(req), Stored2(req), net, [req]);
    Stuck(c, req);
  }

  lemma NothingTaken(n: Node, command: Command)
    requires !command.Request?
    ensures Taken(n, command) == []
  {
  }

  lemma Stuck(c: Cluster, req: ClientRequest)
    requires Reachable(c) && 1 in c.nodes && c.nodes[1] == Committed(req)
    ensures IsLeader(c, 1) && c.nodes[1].health.Running? && c.nodes[1].chain.commit == 1
    ensures Step(c.nodes[1], Tick, false).node.health.Stopped?
  {
    hide Step, Reachable;
    assert 2 in c.nodes[1].peers && Cornered(c.nodes[1], 2);
    TickStopsLeader(c, 1, false);
  }

  // ---- Using up the ids ----

  /** The pair's leader has appended `n` requests and heard from nobody. */
  ghost predicate Unheard(c: Cluster, n: nat) {
    && Reachable(c) && c.nodes.Keys == {1, 2} && IsLeader(c, 1)
    && c.nodes[1].health.Running? && c.nodes[1].chain.head == n && c.nodes[1].chain.commit == 0
    && c.nodes[1].role.progress.Keys == {1, 2} && c.nodes[1].role.progress[2] == NewProgress()
  }

  lemma FirstUnheard() returns (c: Cluster)
    ensures Unheard(c, 0)
  {
    hide Reachable;
    var net := ElectPair();
    c := State(Elect(), Voter(), net, []);
  }

  /** One more request leaves the quorum index where it was. */
  lemma OneMoreTaken(n: Node, req: ClientRequest, accepted: seq<ClientRequest>)
    requires n.role.Leader? && n.id == 1 && n.health.Running? && n.chain.commit == 0 && n.chain.head < U64 - 1
    requires n.role.progress.Keys == {1, 2} && NoSnapshot(n.role.progress) && n.role.progress[2] == NewProgress()
    requires Ledger(n.chain, accepted) && n.chain.idGen == (n.chain.head + 1) % U64
    ensures var m := LeaderRequest(n, req);
            && m.role.Leader? && m.health.Running? && m.chain.head == n.chain.head + 1 && m.chain.commit == 0
            && m.role.progress.Keys == {1, 2} && m.role.progress[2] == NewProgress()
  {
    hide QuorumIndex, Drain, ScanThrough, Ledger;
    AppendOk(n.chain, req, accepted);
    var p := AdvanceNode(n.role.progress, Ack(1, n.chain.head + 1));
    PairQuorum(p, p[1].head, 0);
  }

  lemma OneMoreUnheard(c: Cluster, n: nat, req: ClientRequest) returns (c': Cluster)
    requires Unheard(c, n) && n < U64 - 1 && req.address == Client
    ensures Unheard(c', n + 1)
  {
    hide Reachable, LeaderRequest, Ledger, DataInv;
    LeaderSound(c, 1);
    OneMoreTaken(c.nodes[1], req, c.accepted);
    var out := Step(c.nodes[1], Request(req), false);
    c' := Asks(c, 1, req, out);
    assert c'.nodes.Keys == {1, 2};
  }

  lemma {:induction false} ManyUnheard(n: nat, req: ClientRequest) returns (c: Cluster)
    requires n < U64 && req.address == Client
    ensures Unheard(c, n)
    decreases n
  {
    hide Unheard;
    if n == 0 {
      c := FirstUnheard();
    } else {
      c := ManyUnheard(n - 1, req);
      c := OneMoreUnheard(c, n - 1, req);
    }
  }

  /** A pair whose leader has used up all ids is reachable, and the next request
      fails its id assertion. */
  lemma IdsRunOut(req: ClientRequest) returns (c: Cluster)
    requires req.address == Client
    ensures Reachable(c) && c.nodes.Keys == {1, 2} && IsLeader(c, 1) && c.nodes[1].health.Running?
    ensures c.nodes[1].chain.head == U64 - 1 && Enabled(c, 1, Request(req))
    ensures Step(c.nodes[1], Request(req), false).node.health == Stopped(IdAssertion)
  {
    hide Reachable, Step;
    c := ManyUnheard(U64 - 1, req);
    RequestExhausts(c, 1, req, false);
  }
}
