/** An execution of a single node: it elects itself, commits every request at
    once, and stops where its commit range meets the key "commit". */
module OneNodeRun {
  import opened RaftTypes
  import opened BlockKeys
  import opened Chains
  import opened Elections
  import opened ProgressTracking
  import opened Nodes
  import opened Clusters
  import opened Executions
  import opened ElectionSafety
  import opened Replication
  import opened ReplicationSteps
  import opened CommitKeys
  import opened Stops

  /** The node leads alone and has appended `n` requests. */
  ghost predicate Lone(c: Cluster, n: nat) {
    && Reachable(c) && c.nodes.Keys == {1} && IsLeader(c, 1)
    && c.nodes[1].health.Running? && c.nodes[1].peers == [] && c.nodes[1].chain.head == n
  }

  lemma ElectsItself()
    ensures var n := Step(FreshNode(1, []), Tick, true).node;
            n.role.Leader? && n.health.Running? && n.peers == [] && n.chain == FreshChain()
  {
    var k := ToCandidate(FreshNode(1, [])).(votedFor := Some(1), term := 1);
    var t := Voted(k.role.tally, 1, true);
    assert Status(t) == Elected;
  }

  function LoneStart(): Cluster {
    Cluster(map[1 := FreshNode(1, [])], {}, [])
  }

  lemma StartsAlone()
    ensures Reachable(LoneStart())
  {
    var c := LoneStart();
    var none: set<NodeId> := {};
    assert c.nodes.Keys == {1} && c.nodes.Keys - {1} == none;
    assert Enumerates([], none);
    assert c.nodes != map[] by { assert 1 in c.nodes; }
    assert Init(c);
    assert Run([c]);
  }

  lemma FirstLone() returns (c: Cluster)
    ensures Lone(c, 0)
  {
    hide Step, Reachable;
    var start := LoneStart();
    StartsAlone();
    ElectsItself();
    var out := Step(FreshNode(1, []), Tick, true);
    c := Ticks(start, 1, true, out);
  }

  lemma RequestAppends(n: Node, req: ClientRequest, accepted: seq<ClientRequest>)
    requires n.role.Leader? && n.health.Running? && Ledger(n.chain, accepted) && n.chain.idGen == (n.chain.head + 1) % U64
    requires n.chain.head < U64 - 1
    ensures var m := LeaderRequest(n, req);
            m.role.Leader? && m.peers == n.peers && m.chain.head == n.chain.head + 1
  {
    hide Drain, Scan, ScanThrough, QuorumIndex;
    AppendOk(n.chain, req, accepted);
  }

  lemma OneMoreLone(c: Cluster, n: nat, req: ClientRequest) returns (c': Cluster)
    requires Lone(c, n) && n < COMMIT_RANK - 1 && req.address == Client
    ensures Lone(c', n + 1)
  {
    hide Reachable, LeaderRequest, Ledger, DataInv;
    LeaderSound(c, 1);
    RequestAppends(c.nodes[1], req, c.accepted);
    var out := Step(c.nodes[1], Request(req), false);
    assert out.node.health == Fate(c.nodes[1], Request(req)) by {
      StepFate(c, 1, Request(req), false);
    }
    c' := Asks(c, 1, req, out);
    assert c'.nodes.Keys == {1};
  }

  lemma {:induction false} ManyLone(n: nat, req: ClientRequest) returns (c: Cluster)
    requires n < COMMIT_RANK && req.address == Client
    ensures Lone(c, n)
    decreases n
  {
    hide Lone;
    if n == 0 {
      c := FirstLone();
    } else {
      c := ManyLone(n - 1, req);
      c := OneMoreLone(c, n - 1, req);
    }
  }

  /** A single node that has committed everything below the key is reachable,
      and its next request stops it there. */
  lemma KeyStopsLoneLeader(req: ClientRequest) returns (c: Cluster)
    requires req.address == Client
    ensures Reachable(c) && c.nodes.Keys == {1} && IsLeader(c, 1) && c.nodes[1].health.Running?
    ensures c.nodes[1].chain.commit == c.nodes[1].chain.head == COMMIT_RANK - 1 && Enabled(c, 1, Request(req))
    ensures Step(c.nodes[1], Request(req), false).node.health == Stopped(ScanHitCommitKey)
  {
    hide Reachable, Step;
    c := ManyLone(COMMIT_RANK - 1, req);
    assert |c.nodes| == |c.nodes.Keys| == 1;
    AloneCommitsHead(c, 1);
    StepFate(c, 1, Request(req), false);
  }
}
