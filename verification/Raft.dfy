/** The mutable Raft node, each handler proved against the value-level account of it. */
module RaftNode {
  import opened RaftTypes
  import opened Chains
  import opened ChainStore
  import opened Elections
  import opened ProgressTracking
  import opened Nodes

  datatype RoleRef =
    | FollowerRef(leaderId: Option<NodeId>, proxied: set<RequestId>, queued: seq<ClientRequest>)
    | CandidateRef(election: Election, backlog: seq<ClientRequest>)
    | LeaderRef(progress: ReplicationProgress)

  /** The blocks of entries none of which is the commit key. */
  function BlocksOf(es: seq<Entry>): seq<Block>
    requires forall i :: 0 <= i < |es| ==> es[i].BlockEntry?
  {
    seq(|es|, i requires 0 <= i < |es| => es[i].block)
  }

  lemma {:induction false} DrainUpTo(es: seq<Entry>, i: nat)
    requires i <= |es| && forall j :: 0 <= j < i ==> es[j].BlockEntry?
    requires i < |es| ==> es[i].CommitEntry?
    ensures Drain(es) == Yield(BlocksOf(es[..i]), i == |es|)
  {
    if i > 0 {
      DrainUpTo(es[1..], i - 1);
      assert BlocksOf(es[..i]) == [es[0].block] + BlocksOf(es[1..][..i - 1]);
    }
  }

  /** What is handed on of the blocks an iterator yields. */
  function Fed(bs: seq<Block>, skipFirst: bool): seq<Block> {
    if skipFirst then Rest(bs) else bs
  }

  lemma NothingFed()
    ensures BlocksOf([]) == [] && Applies([]) == []
  {
  }

  lemma BlocksSnoc(es: seq<Entry>, e: Entry)
    requires e.BlockEntry? && forall i :: 0 <= i < |es| ==> es[i].BlockEntry?
    ensures BlocksOf(es + [e]) == BlocksOf(es) + [e.block]
  {
  }

  lemma FedSnoc(bs: seq<Block>, b: Block, skipFirst: bool)
    ensures Applies(Fed(bs + [b], skipFirst)) ==
            Applies(Fed(bs, skipFirst)) + if bs != [] || !skipFirst then [Apply(b)] else []
  {
    if bs != [] {
      assert (bs + [b])[1..] == bs[1..] + [b];
    }
  }

  class Raft {
    const id: NodeId
    const peers: seq<NodeId>
    const chain: Chain
    var term: Term
    var votedFor: Option<NodeId>
    var role: RoleRef
    var log: seq<Instruction>
    var outbox: seq<Message>
    var health: Health

    ghost function Parts(): set<object>
      reads this
    {
      match role
      case FollowerRef(_, _, _) => {}
      case CandidateRef(election, _) => {election}
      case LeaderRef(progress) => {progress}
    }

    ghost function State(): Node
      reads this, chain, Parts()
    {
      Node(id, peers, term, votedFor,
           match role {
             case FollowerRef(leaderId, proxied, queued) => Follower(leaderId, proxied, queued)
             case CandidateRef(election, backlog) => Candidate(election.State(), backlog)
             case LeaderRef(progress) => Leader(progress.progress)
           },
           chain.State(), log, health)
    }

    /** A handler has turned the old node into `out`, sending its messages. */
    twostate predicate Did(out: Out)
      reads this, chain, Parts()
    {
      State() == out.node && outbox == old(outbox) + out.msgs && fresh(Parts() - old(Parts()))
    }

    constructor (self: NodeId, others: seq<NodeId>, store: Chain)
      ensures State() == FreshNode(self, others).(chain := store.State()) && outbox == [] && chain == store
      ensures store.State() == FreshChain() ==> State() == FreshNode(self, others)
    {
      id, peers, chain := self, others, store;
      term, votedFor := 0, None;
      role := FollowerRef(None, {}, []);
      log, outbox, health := [], [], Running;
    }

    method Send(to: Address, c: Command)
      modifies this`outbox
      ensures outbox == old(outbox) + [Message(Peer(id), to, c)]
    {
      outbox := outbox + [Message(Peer(id), to, c)];
    }

    /** Hands the blocks of a range iterator to the driver, all or all but the
        first; `ok` is false if the iterator panics. */
    method Feed(es: seq<Entry>, skipFirst: bool) returns (ok: bool)
      modifies this`log
      ensures ok == Drain(es).ok
      ensures log == old(log) + Applies(if skipFirst then Rest(Drain(es).blocks) else Drain(es).blocks)
    {
      hide BlocksOf, Drain, Applies;
      assert BlocksOf([]) == [] && Applies([]) == [] by { NothingFed(); }
      assert es[..0] == [];
      for i := 0 to |es|
        invariant forall j :: 0 <= j < i ==> es[j].BlockEntry?
        invariant |BlocksOf(es[..i])| == i && log == old(log) + Applies(Fed(BlocksOf(es[..i]), skipFirst))
      {
        if es[i].CommitEntry? {
          DrainUpTo(es, i);
          return false;
        }
        var b := es[i].block;
        assert es[..i + 1] == es[..i] + [es[i]];
        BlocksSnoc(es[..i], es[i]);
        FedSnoc(BlocksOf(es[..i]), b, skipFirst);
        if i > 0 || !skipFirst {
          log := log + [Apply(b)];
        }
      }
      DrainUpTo(es, |es|);
      assert es[..|es|] == es;
      return true;
    }

    // ---- Leader ----

    method LeaderCommits()
      requires role.LeaderRef?
      modifies this`log, this`health, chain
      ensures State() == LeaderCommit(old(State()))
    {
      var index := role.progress.CommittedIndex();
      if index.None? {
        assert Heads(role.progress.progress).Keys == role.progress.progress.Keys;
        health := Stopped(NoQuorumIndex);
        return;
      }
      if index.value > chain.commit {
        var prev := chain.commit;
        var ok := chain.Commit(index.value);
        if !ok {
          health := Stopped(CommitPanic);
          return;
        }
        var fed := Feed(ScanThrough(ChainState(chain.blocks, chain.commitKey, chain.idGen, chain.commit, chain.head), prev, index.value), true);
        if !fed {
          health := Stopped(ScanHitCommitKey);
        }
      }
    }

    /** Steps the iterator from a member's head on: over the head and on to the
        batch, or to its failure. On a gapless store the batch is the blocks
        after that head, as many as the kind of batch allows. */
    method LeaderCollects(p: NodeProgress) returns (y: Yield)
      ensures y == BatchScan(chain.State(), p)
      ensures KeyedById(chain.State()) && Dense(chain.State(), chain.head) && p.head <= chain.head ==>
                && (y.ok <==> !Meets(chain.State(), p.head, if p.Probe? then 2 else MAX_INFLIGHT + 1))
                && (y.ok ==> |Rest(y.blocks)| == Min(chain.head - p.head, if p.Probe? then 1 else MAX_INFLIGHT))
                && (y.ok ==> RunOf(chain.blocks, Rest(y.blocks), p.head + 1))
    {
      hide Drain, Scan, Dense;
      var es := Scan(ChainState(chain.blocks, chain.commitKey, chain.idGen, chain.commit, chain.head), p.head, U64);
      var limit := if p.Probe? then 2 else 1 + MAX_INFLIGHT;
      ghost var window := es[..Min(|es|, limit)];
      var blocks, i := [], 0;
      while i < limit && i < |es| && es[i].BlockEntry?
        invariant i <= |window| && (forall j :: 0 <= j < i ==> window[j].BlockEntry?) && blocks == BlocksOf(window[..i])
      {
        assert window[..i + 1] == window[..i] + [es[i]];
        blocks := blocks + [es[i].block];
        i := i + 1;
      }
      y := Yield(blocks, i == limit || i == |es|);
      DrainUpTo(window, i);
      if KeyedById(chain.State()) && Dense(chain.State(), chain.head) && p.head <= chain.head {
        BatchStops(chain.State(), p);
        if y.ok {
          BatchSize(chain.State(), p);
        }
      }
    }

    method LeaderReplicates()
      requires role.LeaderRef?
      modifies this`outbox, this`health
      ensures Did(LeaderReplicate(old(State())))
    {
      hide BatchScan;
      ghost var was := State();
      assert peers[0..] == peers;
      for i := 0 to |peers|
        invariant State() == was
        invariant outbox <= old(outbox) + ReplicateTo(was, peers).msgs
        invariant old(outbox) + ReplicateTo(was, peers).msgs == outbox + ReplicateTo(was, peers[i..]).msgs
        invariant ReplicateTo(was, peers).ok == ReplicateTo(was, peers[i..]).ok
      {
        assert peers[i..][0] == peers[i] && peers[i..][1..] == peers[i + 1..];
        var p := peers[i];
        if p in role.progress.progress {
          var progress := role.progress.progress[p];
          if !IsActive(progress) {
            continue;
          }
          if !progress.Snapshot? {
            var y := LeaderCollects(progress);
            if !y.ok {
              health := Stopped(ScanHitCommitKey);
              return;
            }
            Send(Peer(p), AppendEntries(term, id, Rest(y.blocks)));
          }
        }
      }
    }

    method LeaderHeartbeats()
      modifies this`outbox
      ensures outbox == old(outbox) + [HeartbeatMail(State())]
    {
      Send(Peers, Heartbeat(term, chain.commit, id));
    }

    method LeaderTicks(elapsed: bool)
      requires role.LeaderRef?
      modifies this`outbox, this`health
      ensures Did(LeaderTick(old(State()), elapsed))
    {
      if elapsed {
        LeaderHeartbeats();
      }
      LeaderReplicates();
    }

    method LeaderTakesAck(node: NodeId, head: BlockId)
      requires role.LeaderRef?
      modifies this`log, this`health, chain, role.progress
      ensures State() == LeaderAppendResponse(old(State()), node, head) && role == old(role)
    {
      var known := node in role.progress.progress;
      var ok := role.progress.Advance(node, head);
      if !ok {
        assert !known ==> role.progress.progress == old(role.progress.progress);
        health := Stopped(if known then NoQuorumIndex else UnknownMember);
        return;
      }
      LeaderCommits();
    }

    method LeaderTakesRequest(req: ClientRequest)
      requires role.LeaderRef?
      modifies this`log, this`health, chain, role.progress
      ensures State() == LeaderRequest(old(State()), req) && role == old(role)
    {
      var ok := chain.Append(req.proposal);
      if !ok {
        health := Stopped(IdAssertion);
        return;
      }
      log := log + [Notify(req.id, req.address, chain.head)];
      LeaderTakesAck(id, chain.head);
    }

    method LeaderTakesEntries(newTerm: Term)
      requires role.LeaderRef?
      modifies this`votedFor, this`term, this`health
      ensures State() == LeaderAppendEntries(old(State()), newTerm)
    {
      if newTerm > term {
        votedFor := None;
        term := newTerm;
        health := Stopped(LeaderTermUnimplemented);
      }
    }

    method ApplyAsLeader(c: Command, elapsed: bool)
      requires role.LeaderRef?
      modifies this, chain, Parts()
      ensures Did(LeaderApply(old(State()), c, elapsed))
    {
      match c {
        case Tick => LeaderTicks(elapsed);
        case HeartbeatResponse(commit, hasCommitted) =>
          if !hasCommitted && commit > 0 {
            LeaderReplicates();
          }
        case AppendResponse(node, _, head, _) => LeaderTakesAck(node, head);
        case AppendEntries(newTerm, _, _) => LeaderTakesEntries(newTerm);
        case Request(req) => LeaderTakesRequest(req);
        case _ =>
      }
    }

    // ---- Candidate ----

    method BecomeLeader()
      requires role.CandidateRef?
      modifies this`role
      ensures State() == ToLeader(old(State())) && fresh(Parts())
    {
      var progress := new ReplicationProgress(peers + [id]);
      role := LeaderRef(progress);
    }

    method BecomeFollower()
      requires role.CandidateRef?
      modifies this`role
      ensures State() == ToFollower(old(State()))
    {
      role := FollowerRef(None, {}, role.backlog);
    }

    method CandidateTakesVote(from: NodeId, granted: bool)
      requires role.CandidateRef?
      modifies this, role.election
      ensures Did(CandidateVoteResponse(old(State()), from, granted))
    {
      hide Status, Granted, FreshProgress;
      role.election.Vote(from, granted);
      var status := role.election.Outcome();
      match status {
        case Elected =>
          BecomeLeader();
          LeaderHeartbeats();
        case Voting =>
        case Defeated =>
          votedFor := None;
          BecomeFollower();
      }
    }

    method CandidateSeeksElection()
      requires role.CandidateRef?
      modifies this, role.election
      ensures Did(SeekElection(old(State())))
    {
      hide CandidateVoteResponse;
      votedFor := Some(id);
      term := (term + 1) % U64;
      ghost var call := VoteCall(State());
      for i := 0 to |peers|
        invariant role == old(role) && role.CandidateRef? && role.election.State() == old(role.election.State())
        invariant votedFor == Some(id) && term == (old(term) + 1) % U64 && log == old(log) && health == old(health)
        invariant outbox == old(outbox) + seq(i, _ => call)
      {
        Send(Peers, VoteRequest(term, id, term, chain.head));
      }
      CandidateTakesVote(id, true);
    }

    method CandidateTicks(elapsed: bool)
      requires role.CandidateRef?
      modifies this, role.election
      ensures Did(CandidateTick(old(State()), elapsed))
    {
      hide Status, SeekElection;
      if elapsed {
        var status := role.election.Outcome();
        if status.Elected? {
          health := Stopped(ElectedWhileVoting);
          return;
        }
        votedFor := None;
        BecomeFollower();
        FollowerTimesOut();
      }
    }

    method CandidateTakesCall(candidate: NodeId, newTerm: Term)
      requires role.CandidateRef?
      modifies this, role.election
      ensures Did(CandidateVoteRequest(old(State()), candidate, newTerm))
    {
      if newTerm > term {
        votedFor := None;
        term := newTerm;
        role.election.Reset();
        BecomeFollower();
        return;
      }
      Send(Peer(candidate), VoteResponse(term, id, false));
    }

    method CandidateTakesEntries(newTerm: Term)
      requires role.CandidateRef?
      modifies this`role
      ensures State() == CandidateAppendEntries(old(State()), newTerm) && (role.CandidateRef? ==> role == old(role))
    {
      if newTerm >= term {
        BecomeFollower();
      }
    }

    method CandidateTakesHeartbeat(newTerm: Term, leader: NodeId, commit: BlockId)
      requires role.CandidateRef?
      modifies this, role.election
      ensures Did(CandidateHeartbeat(old(State()), newTerm, leader, commit))
    {
      var hasCommitted := chain.Has(commit);
      term := newTerm;
      role.election.Reset();
      votedFor := Some(leader);
      BecomeFollower();
      Send(Peer(leader), HeartbeatResponse(chain.commit, hasCommitted));
    }

    method ApplyAsCandidate(c: Command, elapsed: bool)
      requires role.CandidateRef?
      modifies this, role.election
      ensures Did(CandidateApply(old(State()), c, elapsed))
    {
      match c {
        case Tick => CandidateTicks(elapsed);
        case VoteRequest(newTerm, candidate, _, _) => CandidateTakesCall(candidate, newTerm);
        case VoteResponse(_, from, granted) => CandidateTakesVote(from, granted);
        case AppendEntries(newTerm, _, _) => CandidateTakesEntries(newTerm);
        case Heartbeat(newTerm, commit, leader) => CandidateTakesHeartbeat(newTerm, leader, commit);
        case Request(req) => role := role.(backlog := role.backlog + [req]);
        case _ =>
      }
    }

    // ---- Follower ----

    method FollowerTimesOut()
      requires role.FollowerRef?
      modifies this
      ensures Did(FollowerTimeout(old(State())))
    {
      if votedFor.None? {
        var election := new Election(peers + [id]);
        role := CandidateRef(election, []);
        CandidateSeeksElection();
      }
    }

    method FollowerTakesCall(candidate: NodeId, lastTerm: Term, head: BlockId)
      requires role.FollowerRef?
      modifies this
      ensures Did(FollowerVoteRequest(old(State()), candidate, lastTerm, head))
    {
      if !(votedFor.Some? || term > lastTerm || chain.commit > head) {
        Send(Peer(candidate), VoteResponse(term, id, true));
        votedFor := Some(candidate);
      } else {
        Send(Peer(candidate), VoteResponse(term, id, false));
      }
    }

    method FollowerExtends(blocks: seq<Block>) returns (ok: bool)
      modifies chain
      ensures ChainResult(chain.State(), ok) == ExtendAll(old(chain.State()), blocks)
    {
      assert blocks[0..] == blocks;
      for i := 0 to |blocks|
        invariant ExtendAll(old(chain.State()), blocks) == ExtendAll(chain.State(), blocks[i..])
      {
        assert blocks[i..][0] == blocks[i] && blocks[i..][1..] == blocks[i + 1..];
        ok := chain.Extend(blocks[i]);
        if !ok {
          return;
        }
      }
      return true;
    }

    method FollowerTakesEntries(blocks: seq<Block>, leader: NodeId, newTerm: Term)
      requires role.FollowerRef?
      modifies this, chain
      ensures Did(FollowerAppendEntries(old(State()), blocks, leader, newTerm))
    {
      if votedFor.None? && newTerm >= term {
        term := newTerm;
        votedFor := Some(leader);
        role := role.(leaderId := Some(leader));
      }
      if votedFor.Some? && votedFor.value != leader && newTerm < term {
        health := Stopped(ConflictingLeader);
        return;
      }
      if blocks != [] {
        var ok := FollowerExtends(blocks);
        if !ok {
          health := Stopped(MissingParent);
          return;
        }
        Send(Peer(leader), AppendResponse(id, term, chain.head, true));
      }
    }

    method FollowerForwards(leader: NodeId)
      requires role.FollowerRef?
      modifies this`role, this`outbox
      ensures role == FollowerRef(old(role).leaderId, old(role).proxied + set i | 0 <= i < |old(role).queued| :: old(role).queued[i].id, [])
      ensures outbox == old(outbox) + Forwards(old(State()), leader, old(role).queued)
    {
      var reqs := role.queued;
      role := role.(queued := []);
      for i := 0 to |reqs|
        invariant role == FollowerRef(old(role).leaderId, old(role).proxied + set j | 0 <= j < i :: reqs[j].id, [])
        invariant outbox == old(outbox) + Forwards(old(State()), leader, reqs[..i])
      {
        Send(Peer(leader), Request(reqs[i]));
        assert reqs[..i + 1] == reqs[..i] + [reqs[i]];
        role := role.(proxied := role.proxied + {reqs[i].id});
      }
      assert reqs[..|reqs|] == reqs;
    }

    /** Moves the commit pointer and hands on what it passes. */
    method FollowerAdvances(commit: BlockId) returns (cause: Option<StopCause>)
      modifies this`log, chain
      ensures var r, y := Commit(old(chain.State()), commit), Drain(Scan(Commit(old(chain.State()), commit).chain, old(chain.commit), commit));
              && chain.State() == r.chain
              && log == old(log) + (if r.ok then Applies(y.blocks) else [])
              && cause == if !r.ok then Some(CommitPanic) else if !y.ok then Some(ScanHitCommitKey) else None
    {
      hide Drain, Scan;
      var prev := chain.commit;
      var ok := chain.Commit(commit);
      if !ok {
        return Some(CommitPanic);
      }
      var fed := Feed(Scan(ChainState(chain.blocks, chain.commitKey, chain.idGen, chain.commit, chain.head), prev, commit), false);
      return if fed then None else Some(ScanHitCommitKey);
    }

    method FollowerTakesHeartbeat(leader: NodeId, newTerm: Term, commit: BlockId)
      requires role.FollowerRef?
      modifies this, chain
      ensures Did(FollowerHeartbeat(old(State()), leader, newTerm, commit))
    {
      hide Drain, Scan;
      term := newTerm;
      role := role.(leaderId := Some(leader));
      votedFor := Some(leader);
      FollowerForwards(leader);
      var hasCommitted := chain.Has(commit);
      if hasCommitted && commit > chain.commit {
        var cause := FollowerAdvances(commit);
        if cause.Some? {
          health := Stopped(cause.value);
          return;
        }
      }
      Send(Peer(leader), HeartbeatResponse(chain.commit, hasCommitted));
    }

    method FollowerTakesRequest(req: ClientRequest)
      requires role.FollowerRef?
      modifies this
      ensures Did(FollowerRequest(old(State()), req))
    {
      var mine := req.(address := Peer(id));
      if role.leaderId.Some? {
        Send(Peer(role.leaderId.value), Request(mine));
        role := role.(proxied := role.proxied + {req.id});
      } else {
        role := role.(queued := role.queued + [mine]);
      }
    }

    method FollowerTakesResponse(request: RequestId, reply: Reply)
      requires role.FollowerRef?
      modifies this
      ensures Did(FollowerResponse(old(State()), request, reply))
    {
      Send(Client, Response(request, reply));
      role := role.(proxied := role.proxied - {request});
    }

    method ApplyAsFollower(c: Command, elapsed: bool)
      requires role.FollowerRef?
      modifies this, chain
      ensures Did(FollowerApply(old(State()), c, elapsed))
    {
      match c {
        case Tick =>
          if elapsed {
            FollowerTimesOut();
          }
        case AppendEntries(newTerm, leader, blocks) => FollowerTakesEntries(blocks, leader, newTerm);
        case Heartbeat(newTerm, commit, leader) => FollowerTakesHeartbeat(leader, newTerm, commit);
        case VoteRequest(_, candidate, lastTerm, head) => FollowerTakesCall(candidate, lastTerm, head);
        case Timeout => FollowerTimesOut();
        case Request(req) => FollowerTakesRequest(req);
        case Response(request, reply) => FollowerTakesResponse(request, reply);
        case _ =>
      }
    }

    /** The one entry point: the object moves as the value-level step says, for
        every role, command and timer reading. */
    method Handle(c: Command, elapsed: bool)
      requires health.Running?
      modifies this, chain, Parts()
      ensures Did(Step(old(State()), c, elapsed))
    {
      match role {
        case FollowerRef(_, _, _) => ApplyAsFollower(c, elapsed);
        case CandidateRef(_, _) => ApplyAsCandidate(c, elapsed);
        case LeaderRef(_) => ApplyAsLeader(c, elapsed);
      }
    }
  }

  /** A node over a store that holds nothing yet is the node every run starts from. */
  method StartFresh(self: NodeId, others: seq<NodeId>) returns (node: Raft)
    ensures fresh(node) && node.State() == FreshNode(self, others) && node.outbox == []
  {
    var chain := new Chain.Open(map[], None);
    node := new Raft(self, others, chain);
  }
}
