/** Building executions of a cluster one event at a time. */
module Executions {
  import opened RaftTypes
  import opened Nodes
  import opened Clusters

  lemma ReachableStep(c: Cluster, e: Event, c': Cluster)
    requires Reachable(c) && Next(c, e, c')
    ensures Reachable(c')
  {
    hide Next, Init;
    var cs :| Run(cs) && cs[|cs| - 1] == c;
    var cs' := cs + [c'];
    assert Follows(c, c');
    forall i | 0 <= i < |cs'| - 1 ensures Follows(cs'[i], cs'[i + 1]) {
      if i < |cs| - 1 {
        assert Follows(cs[i], cs[i + 1]);
      }
    }
    assert Run(cs');
  }

  /** A member handles a command that is not a request. */
  lemma Moves(c: Cluster, id: NodeId, command: Command, elapsed: bool, out: Out) returns (c': Cluster)
    requires Reachable(c) && id in c.nodes && c.nodes[id].health.Running? && !command.Request?
    requires Enabled(c, id, command) && Step(c.nodes[id], command, elapsed) == out
    ensures Reachable(c') && c'.nodes == c.nodes[id := out.node] && c.net <= c'.net
    ensures forall m :: m in out.msgs ==> m in c'.net
  {
    hide Step, Reachable, Enabled;
    c' := Cluster(c.nodes[id := out.node], c.net + (set m | m in out.msgs), c.accepted);
    assert c.accepted + [] == c.accepted;
    ReachableStep(c, Handle(id, command, elapsed), c');
  }

  lemma Ticks(c: Cluster, id: NodeId, elapsed: bool, out: Out) returns (c': Cluster)
    requires Reachable(c) && id in c.nodes && c.nodes[id].health.Running? && Step(c.nodes[id], Tick, elapsed) == out
    ensures Reachable(c') && c'.nodes == c.nodes[id := out.node] && c.net <= c'.net
    ensures forall m :: m in out.msgs ==> m in c'.net
  {
    hide Step, Reachable;
    c' := Moves(c, id, Tick, elapsed, out);
  }

  lemma Receives(c: Cluster, id: NodeId, m: Message, out: Out) returns (c': Cluster)
    requires Reachable(c) && id in c.nodes && c.nodes[id].health.Running? && !m.command.Request?
    requires m in c.net && Deliverable(m, id) && Step(c.nodes[id], m.command, false) == out
    ensures Reachable(c') && c'.nodes == c.nodes[id := out.node] && c.net <= c'.net
    ensures forall r :: r in out.msgs ==> r in c'.net
  {
    hide Step, Reachable;
    c' := Moves(c, id, m.command, false, out);
  }

  /** A client puts a request to a member. */
  lemma Asks(c: Cluster, id: NodeId, req: ClientRequest, out: Out) returns (c': Cluster)
    requires Reachable(c) && id in c.nodes && c.nodes[id].health.Running? && req.address == Client
    requires Step(c.nodes[id], Request(req), false) == out
    ensures Reachable(c') && c'.nodes == c.nodes[id := out.node] && c.net <= c'.net
  {
    hide Step, Reachable, Taken;
    c' := Cluster(c.nodes[id := out.node], c.net + (set m | m in out.msgs), c.accepted + Taken(c.nodes[id], Request(req)));
    ReachableStep(c, Handle(id, Request(req), false), c');
  }
}
