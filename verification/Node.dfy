/** One Raft node as a value, and what applying each command does to it. */
module Nodes {
  import opened RaftTypes
  import opened BlockKeys
  import opened Chains
  import opened Elections
  import opened ProgressTracking

  datatype Role =
    | Follower(leaderId: Option<NodeId>, proxied: set<RequestId>, queued: seq<ClientRequest>)
    | Candidate(tally: Tally, backlog: seq<ClientRequest>)
    | Leader(progress: Progress)

  /** Why a node's event loop ended. */
  datatype StopCause =
    | Crashed                   // the process died, for a reason outside the node
    | IdAssertion               // Chain::append: the new id is not above the head
    | MissingParent             // Chain::extend: the parent is not stored
    | CommitPanic               // Chain::commit: the block is not stored
    | ScanHitCommitKey          // a range scan decoded the value under "commit"
    | ConflictingLeader         // follower: entries from an older, different leader
    | ElectedWhileVoting        // candidate: "this should never happen"
    | UnknownMember             // ReplicationProgress::advance: no such node
    | NoQuorumIndex             // ReplicationProgress: a snapshot, or no member at all
    | LeaderTermUnimplemented   // Role::term of a leader

  datatype Health = Running | Stopped(cause: StopCause)

  datatype Node = Node(
    id: NodeId,
    peers: seq<NodeId>,
    term: Term,
    votedFor: Option<NodeId>,
    role: Role,
    chain: ChainState,
    log: seq<Instruction>,
    health: Health)

  /** The node afterwards and the messages it sent. */
  datatype Out = Out(node: Node, msgs: seq<Message>)

  function FreshNode(id: NodeId, peers: seq<NodeId>): Node {
    Node(id, peers, 0, None, Follower(None, {}, []), FreshChain(), [], Running)
  }

  function Stop(n: Node, cause: StopCause): Node {
    n.(health := Stopped(cause))
  }

  function Mail(n: Node, to: Address, c: Command): Message {
    Message(Peer(n.id), to, c)
  }

  function Voters(n: Node): seq<NodeId> {
    n.peers + [n.id]
  }

  function Applies(bs: seq<Block>): seq<Instruction> {
    seq(|bs|, i requires 0 <= i < |bs| => Apply(bs[i]))
  }

  /** All but the first block an iterator yields. */
  function Rest(bs: seq<Block>): seq<Block> {
    if bs == [] then [] else bs[1..]
  }

  // ---- Conversions between roles ----

  function ToCandidate(n: Node): Node {
    n.(role := Candidate(Tally(Voters(n), map[]), []))
  }

  function ToFollower(n: Node): Node
    requires n.role.Candidate?
  {
    n.(role := Follower(None, {}, n.role.backlog))
  }

  function ToLeader(n: Node): Node {
    n.(role := Leader(FreshProgress(Voters(n))))
  }

  // ---- Leader ----

  function HeartbeatMail(n: Node): Message {
    Mail(n, Peers, Heartbeat(n.term, n.chain.commit, n.id))
  }

  function Window(p: NodeProgress): nat {
    if p.Probe? then 2 else MAX_INFLIGHT + 1
  }

  /** What the replication iterator for one member yields: the member's head,
      which is skipped, and the batch. */
  function BatchScan(c: ChainState, p: NodeProgress): Yield {
    var es := Scan(c, p.head, U64);
    Drain(es[..Min(|es|, Window(p))])
  }

  /** Fewer entries lie between `head` and the key "commit" than the iterator takes. */
  predicate Meets(c: ChainState, head: BlockId, taken: nat) {
    c.commitKey.Some? && head < COMMIT_RANK && Min(c.head + 1, COMMIT_RANK) - head < taken
  }

  /** On a gapless store the iterator fails exactly when it meets the commit key. */
  lemma BatchStops(c: ChainState, p: NodeProgress)
    requires KeyedById(c) && Dense(c, c.head) && p.head <= c.head
    ensures BatchScan(c, p).ok <==> !Meets(c, p.head, if p.Probe? then 2 else MAX_INFLIGHT + 1)
  {
    var es := Scan(c, p.head, U64);
    var w := Min(|es|, Window(p));
    DrainOk(es[..w]);
    ScanEntries(c, p.head, U64);
    hide Scan, Drain;
    if CommitEntry in es[..w] {
      var j :| 0 <= j < w && es[..w][j] == CommitEntry;
      CommitEntryPlace(c, c.head, p.head, j);
    }
    if c.commitKey.Some? && p.head < COMMIT_RANK {
      assert CommitEntry in es;
      var j :| 0 <= j < |es| && es[j] == CommitEntry;
      CommitEntryPlace(c, c.head, p.head, j);
      assert j < w ==> es[..w][j] == CommitEntry;
    }
  }

  /** Otherwise the batch is the blocks after the member's head: the next one
      for a probe, the next MAX_INFLIGHT otherwise, or all there are. */
  lemma BatchSize(c: ChainState, p: NodeProgress)
    requires KeyedById(c) && Dense(c, c.head) && p.head <= c.head && BatchScan(c, p).ok
    ensures |Rest(BatchScan(c, p).blocks)| == Min(c.head - p.head, if p.Probe? then 1 else MAX_INFLIGHT)
    ensures RunOf(c.blocks, Rest(BatchScan(c, p).blocks), p.head + 1)
  {
    var es := Scan(c, p.head, U64);
    var w := Min(|es|, Window(p));
    ScanLength(c, c.head, p.head);
    DrainOk(es[..w]);
    DrainDense(c, c.head, p.head, U64, w);
    var bs := Drain(es[..w]).blocks;
    assert |bs| == w && w > 0;
    assert bs[w - 1].id == p.head + (w - 1) && Stored(c.blocks, bs[w - 1]);
  }

  datatype Sent = Sent(msgs: seq<Message>, ok: bool)

  function ReplicateTo(n: Node, targets: seq<NodeId>): Sent
    requires n.role.Leader?
    decreases targets
  {
    if targets == [] then Sent([], true)
    else
      var p := targets[0];
      if p !in n.role.progress || !IsActive(n.role.progress[p]) || n.role.progress[p].Snapshot? then
        ReplicateTo(n, targets[1..])
      else
        var y := BatchScan(n.chain, n.role.progress[p]);
        if !y.ok then Sent([], false)
        else
          var rest := ReplicateTo(n, targets[1..]);
          Sent([Mail(n, Peer(p), AppendEntries(n.term, n.id, Rest(y.blocks)))] + rest.msgs, rest.ok)
  }

  function LeaderReplicate(n: Node): Out
    requires n.role.Leader?
  {
    var s := ReplicateTo(n, n.peers);
    Out(if s.ok then n else Stop(n, ScanHitCommitKey), s.msgs)
  }

  ghost function LeaderCommit(n: Node): Node
    requires n.role.Leader?
  {
    var heads := Heads(n.role.progress);
    if !NoSnapshot(n.role.progress) || heads == map[] then Stop(n, NoQuorumIndex)
    else
      var q := QuorumIndex(heads);
      if q <= n.chain.commit then n
      else
        var r := Commit(n.chain, q);
        if !r.ok then Stop(n, CommitPanic)
        else
          var y := Drain(ScanThrough(r.chain, n.chain.commit, q));
          var m := n.(chain := r.chain, log := n.log + Applies(Rest(y.blocks)));
          if y.ok then m else Stop(m, ScanHitCommitKey)
  }

  ghost function LeaderAppendResponse(n: Node, node: NodeId, head: BlockId): Node
    requires n.role.Leader?
  {
    if node !in n.role.progress then Stop(n, UnknownMember)
    else if n.role.progress[node].Snapshot? then
      Stop(n.(role := Leader(n.role.progress - {node})), NoQuorumIndex)
    else LeaderCommit(n.(role := Leader(AdvanceNode(n.role.progress, Ack(node, head)))))
  }

  ghost function LeaderRequest(n: Node, req: ClientRequest): Node
    requires n.role.Leader?
  {
    var r := Append(n.chain, req.proposal);
    if !r.ok then Stop(n.(chain := r.chain), IdAssertion)
    else
      var m := n.(chain := r.chain, log := n.log + [Notify(req.id, req.address, r.chain.head)]);
      LeaderAppendResponse(m, n.id, r.chain.head)
  }

  function LeaderAppendEntries(n: Node, term: Term): Node {
    if term > n.term then Stop(n.(votedFor := None, term := term), LeaderTermUnimplemented) else n
  }

  function LeaderTick(n: Node, elapsed: bool): Out
    requires n.role.Leader?
  {
    var out := LeaderReplicate(n);
    out.(msgs := (if elapsed then [HeartbeatMail(n)] else []) + out.msgs)
  }

  ghost function LeaderApply(n: Node, c: Command, elapsed: bool): Out
    requires n.role.Leader?
  {
    match c
    case Tick => LeaderTick(n, elapsed)
    case HeartbeatResponse(commit, has) => if !has && commit > 0 then LeaderReplicate(n) else Out(n, [])
    case AppendResponse(node, _, head, _) => Out(LeaderAppendResponse(n, node, head), [])
    case AppendEntries(term, _, _) => Out(LeaderAppendEntries(n, term), [])
    case Request(req) => Out(LeaderRequest(n, req), [])
    case _ => Out(n, [])
  }

  // ---- Candidate ----

  function CandidateVoteResponse(n: Node, from: NodeId, granted: bool): Out
    requires n.role.Candidate?
  {
    var m := n.(role := n.role.(tally := Voted(n.role.tally, from, granted)));
    match Status(m.role.tally)
    case Elected => Out(ToLeader(m), [HeartbeatMail(m)])
    case Voting => Out(m, [])
    case Defeated => Out(ToFollower(m.(votedFor := None)), [])
  }

  function VoteCall(n: Node): Message {
    Mail(n, Peers, VoteRequest(n.term, n.id, n.term, n.chain.head))
  }

  /** A new term, one broadcast per peer, and the candidate's own vote. */
  function SeekElection(n: Node): Out
    requires n.role.Candidate?
  {
    var m := n.(votedFor := Some(n.id), term := (n.term + 1) % U64);
    var out := CandidateVoteResponse(m, n.id, true);
    out.(msgs := seq(|n.peers|, _ => VoteCall(m)) + out.msgs)
  }

  function CandidateTick(n: Node, elapsed: bool): Out
    requires n.role.Candidate?
  {
    if !elapsed then Out(n, [])
    else if Status(n.role.tally).Elected? then Out(Stop(n, ElectedWhileVoting), [])
    else FollowerTimeout(ToFollower(n.(votedFor := None)))
  }

  function CandidateVoteRequest(n: Node, candidate: NodeId, term: Term): Out
    requires n.role.Candidate?
  {
    if term > n.term then Out(ToFollower(n.(votedFor := None, term := term)), [])
    else Out(n, [Mail(n, Peer(candidate), VoteResponse(n.term, n.id, false))])
  }

  function CandidateAppendEntries(n: Node, term: Term): Node
    requires n.role.Candidate?
  {
    if term >= n.term then ToFollower(n) else n
  }

  function CandidateHeartbeat(n: Node, term: Term, leader: NodeId, commit: BlockId): Out
    requires n.role.Candidate?
  {
    Out(ToFollower(n.(term := term, votedFor := Some(leader))),
        [Mail(n, Peer(leader), HeartbeatResponse(n.chain.commit, commit in n.chain.blocks))])
  }

  function CandidateApply(n: Node, c: Command, elapsed: bool): Out
    requires n.role.Candidate?
  {
    match c
    case Tick => CandidateTick(n, elapsed)
    case VoteRequest(term, candidate, _, _) => CandidateVoteRequest(n, candidate, term)
    case VoteResponse(_, from, granted) => CandidateVoteResponse(n, from, granted)
    case AppendEntries(term, _, _) => Out(CandidateAppendEntries(n, term), [])
    case Heartbeat(term, commit, leader) => CandidateHeartbeat(n, term, leader, commit)
    case Request(req) => Out(n.(role := n.role.(backlog := n.role.backlog + [req])), [])
    case _ => Out(n, [])
  }

  // ---- Follower ----

  predicate CanVote(n: Node, lastTerm: Term, head: BlockId) {
    !(n.votedFor.Some? || n.term > lastTerm || n.chain.commit > head)
  }

  function FollowerTimeout(n: Node): Out
    requires n.role.Follower?
  {
    if n.votedFor.None? then SeekElection(ToCandidate(n)) else Out(n, [])
  }

  function FollowerVoteRequest(n: Node, candidate: NodeId, lastTerm: Term, head: BlockId): Out {
    var granted := CanVote(n, lastTerm, head);
    Out(if granted then n.(votedFor := Some(candidate)) else n,
        [Mail(n, Peer(candidate), VoteResponse(n.term, n.id, granted))])
  }

  function FollowerAppendEntries(n: Node, blocks: seq<Block>, leader: NodeId, term: Term): Out
    requires n.role.Follower?
  {
    var m :=
      if n.votedFor.None? && term >= n.term then
        n.(term := term, votedFor := Some(leader), role := n.role.(leaderId := Some(leader)))
      else n;
    if m.votedFor.Some? && m.votedFor.value != leader && term < m.term then Out(Stop(m, ConflictingLeader), [])
    else if blocks == [] then Out(m, [])
    else
      var r := ExtendAll(m.chain, blocks);
      var k := m.(chain := r.chain);
      if r.ok then Out(k, [Mail(n, Peer(leader), AppendResponse(n.id, m.term, r.chain.head, true))])
      else Out(Stop(k, MissingParent), [])
  }

  function Forwards(n: Node, leader: NodeId, reqs: seq<ClientRequest>): seq<Message> {
    seq(|reqs|, i requires 0 <= i < |reqs| => Mail(n, Peer(leader), Request(reqs[i])))
  }

  function FollowerHeartbeat(n: Node, leader: NodeId, term: Term, commit: BlockId): Out
    requires n.role.Follower?
  {
    var ids := set i | 0 <= i < |n.role.queued| :: n.role.queued[i].id;
    var m := n.(term := term, votedFor := Some(leader), role := Follower(Some(leader), n.role.proxied + ids, []));
    var sent := Forwards(n, leader, n.role.queued);
    var has := commit in n.chain.blocks;
    if has && commit > n.chain.commit then
      var r := Commit(n.chain, commit);
      if !r.ok then Out(Stop(m, CommitPanic), sent)
      else
        var y := Drain(Scan(r.chain, n.chain.commit, commit));
        var k := m.(chain := r.chain, log := n.log + Applies(y.blocks));
        if y.ok then Out(k, sent + [Mail(n, Peer(leader), HeartbeatResponse(commit, has))])
        else Out(Stop(k, ScanHitCommitKey), sent)
    else Out(m, sent + [Mail(n, Peer(leader), HeartbeatResponse(n.chain.commit, has))])
  }

  function FollowerRequest(n: Node, req: ClientRequest): Out
    requires n.role.Follower?
  {
    var mine := req.(address := Peer(n.id));
    match n.role.leaderId
    case Some(leader) =>
      Out(n.(role := n.role.(proxied := n.role.proxied + {req.id})), [Mail(n, Peer(leader), Request(mine))])
    case None => Out(n.(role := n.role.(queued := n.role.queued + [mine])), [])
  }

  function FollowerResponse(n: Node, id: RequestId, reply: Reply): Out
    requires n.role.Follower?
  {
    Out(n.(role := n.role.(proxied := n.role.proxied - {id})), [Mail(n, Client, Response(id, reply))])
  }

  function FollowerApply(n: Node, c: Command, elapsed: bool): Out
    requires n.role.Follower?
  {
    match c
    case Tick => if elapsed then FollowerTimeout(n) else Out(n, [])
    case AppendEntries(term, leader, blocks) => FollowerAppendEntries(n, blocks, leader, term)
    case Heartbeat(term, commit, leader) => FollowerHeartbeat(n, leader, term, commit)
    case VoteRequest(_, candidate, lastTerm, head) => FollowerVoteRequest(n, candidate, lastTerm, head)
    case Timeout => FollowerTimeout(n)
    case Request(req) => FollowerRequest(n, req)
    case Response(id, reply) => FollowerResponse(n, id, reply)
    case _ => Out(n, [])
  }

  /** One command at one running node. `elapsed` is the reading of the
      election or heartbeat timer. */
  ghost function Step(n: Node, c: Command, elapsed: bool): Out {
    match n.role
    case Follower(_, _, _) => FollowerApply(n, c, elapsed)
    case Candidate(_, _) => CandidateApply(n, c, elapsed)
    case Leader(_) => LeaderApply(n, c, elapsed)
  }
}
