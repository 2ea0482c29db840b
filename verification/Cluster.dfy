/** A cluster of nodes over a network that may lose, repeat and reorder
    messages. Nodes may crash-stop at any moment. */
module Clusters {
  import opened RaftTypes
  import opened Chains
  import opened Elections
  import opened Nodes

  /** `net` holds every message ever sent; `accepted` is the history of the
      requests a leader has turned into blocks. */
  datatype Cluster = Cluster(nodes: map<NodeId, Node>, net: set<Message>, accepted: seq<ClientRequest>)

  datatype Event =
    | Handle(node: NodeId, command: Command, elapsed: bool)   // the event loop applies a command
    | Crash(node: NodeId)
    | Report(node: NodeId, to: NodeId, id: RequestId, reply: Reply)  // a driver answers a proxied request

  /** The sending task has no route from a node to itself. */
  ghost predicate Deliverable(m: Message, to: NodeId) {
    m.from != Peer(to) && (m.to == Peer(to) || m.to == Peers)
  }

  ghost predicate Enabled(c: Cluster, node: NodeId, command: Command) {
    || command == Tick
    || (command.Request? && command.request.address == Client)
    || exists m :: m in c.net && m.command == command && Deliverable(m, node)
  }

  /** The requests among which a leader appended a block for this command. */
  ghost function Taken(n: Node, command: Command): seq<ClientRequest> {
    if n.role.Leader? && command.Request? && Append(n.chain, command.request.proposal).ok then [command.request] else []
  }

  ghost predicate Next(c: Cluster, e: Event, c': Cluster) {
    && e.node in c.nodes
    && match e
       case Handle(id, command, elapsed) =>
         && c.nodes[id].health.Running?
         && Enabled(c, id, command)
         && var out := Step(c.nodes[id], command, elapsed);
            c' == Cluster(c.nodes[id := out.node], c.net + (set m | m in out.msgs), c.accepted + Taken(c.nodes[id], command))
       case Crash(id) =>
         c.nodes[id].health.Running? && c' == c.(nodes := c.nodes[id := Stop(c.nodes[id], Crashed)])
       case Report(id, to, req, reply) =>
         c' == c.(net := c.net + {Message(Peer(id), Peer(to), Response(req, reply))})
  }

  /** Every node is configured with all other members, in some order. */
  ghost predicate Init(c: Cluster) {
    && c.nodes != map[]
    && (forall id :: id in c.nodes ==>
                       && c.nodes[id] == FreshNode(id, c.nodes[id].peers)
                       && Enumerates(c.nodes[id].peers, c.nodes.Keys - {id}))
    && c.net == {}
    && c.accepted == []
  }

  ghost predicate Follows(c: Cluster, c': Cluster) {
    exists e :: Next(c, e, c')
  }

  /** A finite execution. */
  ghost predicate Run(cs: seq<Cluster>) {
    && cs != []
    && Init(cs[0])
    && forall i :: 0 <= i < |cs| - 1 ==> Follows(cs[i], cs[i + 1])
  }

  ghost predicate Reachable(c: Cluster) {
    exists cs :: Run(cs) && cs[|cs| - 1] == c
  }

  /** The configuration survives: each node keeps its id and its peers. */
  ghost predicate Configured(c: Cluster) {
    && c.nodes != map[]
    && forall id :: id in c.nodes ==>
                      && c.nodes[id].id == id
                      && Enumerates(c.nodes[id].peers, c.nodes.Keys - {id})
  }
}
