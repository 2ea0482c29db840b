/** What holds of stores, logs and messages once a leader exists, and that
    every step keeps it. */
module Replication {
  import opened RaftTypes
  import opened Chains
  import opened ProgressTracking
  import opened Nodes
  import opened Clusters
  import opened ElectionSafety

  // ---- Logs handed to the driver ----

  function ApplyBlocks(log: seq<Instruction>): seq<Block> {
    if log == [] then []
    else
      var front, last := ApplyBlocks(log[..|log| - 1]), log[|log| - 1];
      if last.Apply? then front + [last.block] else front
  }

  function Notices(log: seq<Instruction>): seq<Instruction> {
    if log == [] then []
    else
      var front, last := Notices(log[..|log| - 1]), log[|log| - 1];
      if last.Notify? then front + [last] else front
  }

  /** At every point of the log no more blocks are applied than announced. */
  ghost predicate AnnouncedFirst(log: seq<Instruction>) {
    forall i :: 0 <= i <= |log| ==> |ApplyBlocks(log[..i])| <= |Notices(log[..i])|
  }

  lemma {:induction false} AppliesAppend(log: seq<Instruction>, bs: seq<Block>)
    ensures ApplyBlocks(log + Applies(bs)) == ApplyBlocks(log) + bs
    ensures Notices(log + Applies(bs)) == Notices(log)
    ensures AnnouncedFirst(log) && |ApplyBlocks(log) + bs| <= |Notices(log)| ==> AnnouncedFirst(log + Applies(bs))
    decreases bs
  {
    if bs == [] {
      assert log + Applies(bs) == log;
    } else {
      var front, last := bs[..|bs| - 1], bs[|bs| - 1];
      AppliesAppend(log, front);
      var log' := log + Applies(bs);
      assert log'[..|log'| - 1] == log + Applies(front);
      if AnnouncedFirst(log) && |ApplyBlocks(log) + bs| <= |Notices(log)| {
        forall i | 0 <= i <= |log'|
          ensures |ApplyBlocks(log'[..i])| <= |Notices(log'[..i])|
        {
          if i < |log'| {
            assert log'[..i] == (log + Applies(front))[..i];
          } else {
            assert log'[..i] == log';
          }
        }
      }
    }
  }

  lemma NotifyAppend(log: seq<Instruction>, i: Instruction)
    requires i.Notify?
    ensures ApplyBlocks(log + [i]) == ApplyBlocks(log)
    ensures Notices(log + [i]) == Notices(log) + [i]
    ensures AnnouncedFirst(log) ==> AnnouncedFirst(log + [i])
  {
    var log' := log + [i];
    assert log'[..|log|] == log;
    if AnnouncedFirst(log) {
      assert log[..|log|] == log;
      forall k | 0 <= k <= |log'|
        ensures |ApplyBlocks(log'[..k])| <= |Notices(log'[..k])|
      {
        if k <= |log| {
          assert log'[..k] == log[..k];
        } else {
          assert log'[..k] == log';
        }
      }
    }
  }

  // ---- One node ----

  type Blocks = map<BlockId, Block>

  ghost predicate Extends(b: Blocks, b': Blocks) {
    forall i :: i in b ==> i in b' && b'[i] == b[i]
  }

  /** A store that is a gapless copy of a stretch of the ledger from genesis on. */
  ghost predicate Replica(ch: ChainState, ledger: Blocks) {
    && Extends(ch.blocks, ledger)
    && (forall i: BlockId, j: BlockId :: j in ch.blocks && i <= j ==> i in ch.blocks)
    && 0 in ch.blocks && ch.head in ch.blocks && ch.commit in ch.blocks
  }

  /** The leader's store: one block per accepted request, each naming the one before it. */
  ghost predicate Ledger(ch: ChainState, accepted: seq<ClientRequest>) {
    && Dense(ch, ch.head) && ch.commit <= ch.head && |accepted| == ch.head
    && (ch.commitKey.Some? <==> ch.commit > 0)
    && ch.blocks[0] == GENESIS
    && forall i :: i in ch.blocks && i > 0 ==> ch.blocks[i] == Block(i, i - 1, accepted[i - 1].proposal)
  }

  ghost predicate LeaderLog(n: Node, accepted: seq<ClientRequest>) {
    && RunOf(n.chain.blocks, ApplyBlocks(n.log), 1)
    && |ApplyBlocks(n.log)| <= n.chain.commit
    && (n.health.Running? ==> |ApplyBlocks(n.log)| == n.chain.commit)
    && |Notices(n.log)| == |accepted|
    && (forall j :: 0 <= j < |accepted| ==> Notices(n.log)[j].Notify?
                                            && Notices(n.log)[j].id == accepted[j].id
                                            && Notices(n.log)[j].address == accepted[j].address
                                            && Notices(n.log)[j].blockId == j + 1)
    && AnnouncedFirst(n.log)
  }

  /** Followers apply one block behind their commit pointer, genesis included. */
  ghost predicate FollowerLog(n: Node, ledger: Blocks) {
    && RunOf(ledger, ApplyBlocks(n.log), 0)
    && |ApplyBlocks(n.log)| <= n.chain.commit
    && (n.health.Running? ==> |ApplyBlocks(n.log)| == n.chain.commit)
    && Notices(n.log) == []
  }

  /** The only stops a node can come to. */
  ghost predicate HealthOk(n: Node) {
    match n.health
    case Running => true
    case Stopped(Crashed) => true
    case Stopped(ScanHitCommitKey) => n.chain.commitKey.Some?
    case Stopped(ConflictingLeader) => true
    case Stopped(IdAssertion) => n.role.Leader? && n.chain.head == U64 - 1
    case _ => false
  }

  ghost predicate PeerOk(n: Node, ledger: Blocks, applied: nat) {
    && Replica(n.chain, ledger)
    && FollowerLog(n, ledger)
    && n.chain.commit <= applied
    && HealthOk(n)
  }

  ghost predicate LeaderOk(n: Node, accepted: seq<ClientRequest>, members: set<NodeId>) {
    && n.role.Leader? && n.id in members
    && Ledger(n.chain, accepted)
    && (n.health.Running? ==> n.chain.idGen == (n.chain.head + 1) % U64)
    && Tracks(n.role.progress, members) && AllActive(n.role.progress)
    && MajorityReached(Heads(n.role.progress), n.chain.commit)
    && LeaderLog(n, accepted)
    && HealthOk(n)
  }

  // ---- The cluster ----

  /** A batch is a run of the ledger whose first parent the addressee stores. */
  ghost predicate BatchOk(bs: seq<Block>, stored: Blocks, ledger: Blocks) {
    bs != [] ==> bs[0].id > 0 && bs[0].id - 1 in stored && RunOf(ledger, bs, bs[0].id)
  }

  ghost predicate MailOk(c: Cluster, l: NodeId, m: Message)
    requires IsLeader(c, l)
  {
    match m.command
    case AppendEntries(_, leader, bs) =>
      && leader == l
      && m.to.Peer? && m.to.id != l && m.to.id in c.nodes
      && BatchOk(bs, c.nodes[m.to.id].chain.blocks, c.nodes[l].chain.blocks)
    case Heartbeat(_, commit, leader) => leader == l && commit <= |ApplyBlocks(c.nodes[l].log)|
    case AppendResponse(node, _, head, _) => node in c.nodes && head in c.nodes[node].chain.blocks
    case _ => true
  }

  /** Each member stores the head the leader believes it has. */
  ghost predicate ProgressKnown(c: Cluster, l: NodeId)
    requires IsLeader(c, l)
  {
    forall p :: p in c.nodes && p in c.nodes[l].role.progress ==>
                  c.nodes[l].role.progress[p].head in c.nodes[p].chain.blocks
  }

  ghost predicate DataInv(c: Cluster, l: NodeId) {
    && IsLeader(c, l)
    && LeaderOk(c.nodes[l], c.accepted, c.nodes.Keys)
    && (forall p :: p in c.nodes && p != l ==>
                      PeerOk(c.nodes[p], c.nodes[l].chain.blocks, |ApplyBlocks(c.nodes[l].log)|))
    && ProgressKnown(c, l)
    && (forall m :: m in c.net ==> MailOk(c, l, m))
  }

  /** Before the first election nothing has been stored, applied or replicated. */
  ghost predicate Untouched(n: Node) {
    n.chain == FreshChain() && n.log == [] && (n.health == Running || n.health == Stopped(Crashed))
  }

  ghost predicate Electioneering(m: Message) {
    !m.command.AppendEntries? && !m.command.Heartbeat? && !m.command.AppendResponse?
  }

  ghost predicate Fresh(c: Cluster) {
    && (forall p :: p in c.nodes ==> Untouched(c.nodes[p]))
    && (forall m :: m in c.net ==> Electioneering(m))
    && c.accepted == []
  }

  // ---- What growth preserves ----

  lemma RunExtends(b: Blocks, b': Blocks, bs: seq<Block>, lo: nat)
    requires Extends(b, b') && RunOf(b, bs, lo)
    ensures RunOf(b', bs, lo)
  {
    forall j | 0 <= j < |bs|
      ensures bs[j].id == lo + j && Stored(b', bs[j])
    {
      assert Stored(b, bs[j]);
    }
  }

  lemma PeerOkGrows(n: Node, ledger: Blocks, ledger': Blocks, applied: nat, applied': nat)
    requires PeerOk(n, ledger, applied) && Extends(ledger, ledger') && applied <= applied'
    ensures PeerOk(n, ledger', applied')
  {
    RunExtends(ledger, ledger', ApplyBlocks(n.log), 0);
  }

  lemma BatchOkGrows(bs: seq<Block>, stored: Blocks, stored': Blocks, ledger: Blocks, ledger': Blocks)
    requires BatchOk(bs, stored, ledger) && Extends(stored, stored') && Extends(ledger, ledger')
    ensures BatchOk(bs, stored', ledger')
  {
    if bs != [] {
      RunExtends(ledger, ledger', bs, bs[0].id);
    }
  }

  /** `c'` differs from `c` only at `id`, where the store has grown. */
  ghost predicate GrowsAt(c: Cluster, c': Cluster, id: NodeId) {
    && id in c.nodes && c'.nodes.Keys == c.nodes.Keys
    && (forall p :: p in c.nodes && p != id ==> c'.nodes[p] == c.nodes[p])
    && Extends(c.nodes[id].chain.blocks, c'.nodes[id].chain.blocks)
  }

  lemma MailOkGrows(c: Cluster, c': Cluster, l: NodeId, id: NodeId, m: Message)
    requires IsLeader(c, l) && IsLeader(c', l) && GrowsAt(c, c', id)
    requires |ApplyBlocks(c.nodes[l].log)| <= |ApplyBlocks(c'.nodes[l].log)|
    requires MailOk(c, l, m)
    ensures MailOk(c', l, m)
  {
    if m.command.AppendEntries? {
      BatchOkGrows(m.command.blocks, c.nodes[m.to.id].chain.blocks, c'.nodes[m.to.id].chain.blocks,
                   c.nodes[l].chain.blocks, c'.nodes[l].chain.blocks);
    }
  }

  /** Messages a node that does not lead may send. */
  ghost predicate PeerMail(id: NodeId, stored: Blocks, m: Message) {
    Electioneering(m) || (m.command.AppendResponse? && m.command.nodeId == id && m.command.head in stored)
  }

  lemma MailAfterPeer(c: Cluster, c': Cluster, l: NodeId, id: NodeId, m: Message)
    requires IsLeader(c, l) && id != l && GrowsAt(c, c', id)
    requires m in c.net ==> MailOk(c, l, m)
    requires m in c.net || PeerMail(id, c'.nodes[id].chain.blocks, m)
    ensures MailOk(c', l, m)
  {
    if m in c.net {
      MailOkGrows(c, c', l, id, m);
    }
  }

  lemma ProgressAfterPeer(c: Cluster, c': Cluster, l: NodeId, id: NodeId)
    requires IsLeader(c, l) && id != l && GrowsAt(c, c', id) && ProgressKnown(c, l)
    ensures ProgressKnown(c', l)
  {
  }

  /** A step of a node that does not lead. */
  lemma PeerStep(c: Cluster, l: NodeId, id: NodeId, out: Out)
    requires DataInv(c, l) && id in c.nodes && id != l
    requires PeerOk(out.node, c.nodes[l].chain.blocks, |ApplyBlocks(c.nodes[l].log)|)
    requires Extends(c.nodes[id].chain.blocks, out.node.chain.blocks)
    requires forall m :: m in out.msgs ==> PeerMail(id, out.node.chain.blocks, m)
    ensures DataInv(After(c, id, out, []), l)
  {
    hide LeaderOk, PeerOk, MailOk, ProgressKnown, PeerMail;
    var c' := After(c, id, out, []);
    assert c'.accepted == c.accepted && c'.nodes[l] == c.nodes[l] && c'.nodes.Keys == c.nodes.Keys;
    assert GrowsAt(c, c', id);
    ProgressAfterPeer(c, c', l, id);
    forall m | m in c'.net ensures MailOk(c', l, m) {
      MailAfterPeer(c, c', l, id, m);
    }
  }

  /** What a step of the leader must amount to. */
  ghost predicate LeaderMove(c: Cluster, l: NodeId, out: Out, taken: seq<ClientRequest>)
    requires l in c.nodes
  {
    && out.node.role.Leader?
    && LeaderOk(out.node, c.accepted + taken, c.nodes.Keys)
    && Extends(c.nodes[l].chain.blocks, out.node.chain.blocks)
    && |ApplyBlocks(c.nodes[l].log)| <= |ApplyBlocks(out.node.log)|
    && ProgressKnown(After(c, l, out, taken), l)
    && forall m :: m in out.msgs ==> MailOk(After(c, l, out, taken), l, m)
  }

  /** A step of the leader. */
  lemma LeaderStep(c: Cluster, l: NodeId, out: Out, taken: seq<ClientRequest>)
    requires DataInv(c, l) && LeaderMove(c, l, out, taken)
    ensures DataInv(After(c, l, out, taken), l)
  {
    hide LeaderOk, PeerOk, MailOk, ProgressKnown;
    var c' := After(c, l, out, taken);
    assert GrowsAt(c, c', l);
    assert c'.nodes.Keys == c.nodes.Keys;
    forall p | p in c.nodes && p != l
      ensures PeerOk(c'.nodes[p], c'.nodes[l].chain.blocks, |ApplyBlocks(c'.nodes[l].log)|)
    {
      PeerOkGrows(c.nodes[p], c.nodes[l].chain.blocks, out.node.chain.blocks,
                  |ApplyBlocks(c.nodes[l].log)|, |ApplyBlocks(out.node.log)|);
    }
    forall m | m in c'.net ensures MailOk(c', l, m) {
      if m in c.net {
        MailOkGrows(c, c', l, l, m);
      }
    }
  }
}
