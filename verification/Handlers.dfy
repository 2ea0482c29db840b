/** What each command does to a node and what the node sends, in terms of the
    command and the node's fields alone. */
module HandlerLaws {
  import opened RaftTypes
  import opened Chains
  import opened Elections
  import opened ProgressTracking
  import opened Nodes
  import opened Clusters
  import opened Executions
  import opened ElectionSafety
  import opened Replication
  import opened ReplicationSteps
  import opened ClusterInvariant
  import opened Theorems
  import opened CommitKeys
  import opened Stops

  // ---- Followers ----

  /** A follower adopts the sender of entries, its term included, exactly when it
      has not voted and the sender is not behind it. */
  lemma EntriesAdopt(n: Node, command: Command, elapsed: bool)
    requires n.role.Follower? && command.AppendEntries?
    ensures var k := Step(n, command, elapsed).node;
            && k.role.Follower? && k.role.proxied == n.role.proxied && k.role.queued == n.role.queued
            && k.id == n.id && k.peers == n.peers && k.log == n.log
            && if n.votedFor.None? && n.term <= command.term
               then k.votedFor == Some(command.leaderId) && k.role.leaderId == Some(command.leaderId) && k.term == command.term
               else k.votedFor == n.votedFor && k.role.leaderId == n.role.leaderId && k.term == n.term
  {
    hide ExtendAll;
  }

  /** Some block of the batch has this id. */
  ghost predicate Brings(bs: seq<Block>, i: BlockId) {
    exists b :: b in bs && b.id == i
  }

  /** Every block's parent is stored or comes earlier in the batch. */
  ghost predicate Hangs(blocks: map<BlockId, Block>, bs: seq<Block>) {
    forall j :: 0 <= j < |bs| ==> bs[j].next in blocks || Brings(bs[..j], bs[j].next)
  }

  /** A batch stops the follower exactly when it comes from an older leader than
      the one voted for, or a parent is missing. */
  lemma EntriesRefused(n: Node, command: Command, elapsed: bool)
    requires n.role.Follower? && n.health.Running? && command.AppendEntries?
    ensures Step(n, command, elapsed).node.health.Stopped? <==>
            || (n.votedFor.Some? && n.votedFor.value != command.leaderId && command.term < n.term)
            || !Hangs(n.chain.blocks, command.blocks)
  {
    hide ExtendAll, Hangs, Brings;
    EntriesHang(n.chain, command.blocks);
  }

  lemma EntriesHang(ch: ChainState, bs: seq<Block>)
    ensures ExtendAll(ch, bs).ok <==> Hangs(ch.blocks, bs)
    ensures bs == [] ==> Hangs(ch.blocks, bs)
  {
    hide ExtendAll, Brings;
    ExtendedStore(ch, bs);
  }

  /** A batch that does not stop the follower is stored block by block and
      acknowledged once, with its last block; nothing answers an empty one. */
  lemma EntriesAnswered(n: Node, command: Command, elapsed: bool)
    requires n.role.Follower? && n.health.Running? && command.AppendEntries?
    requires Step(n, command, elapsed).node.health.Running?
    ensures var out, bs := Step(n, command, elapsed), command.blocks;
            && out.node.chain.commit == n.chain.commit && out.node.chain.commitKey == n.chain.commitKey
            && out.node.chain.idGen == n.chain.idGen
            && (forall i :: i in out.node.chain.blocks <==> i in n.chain.blocks || Brings(bs, i))
            && (forall i :: i in out.node.chain.blocks ==>
                              if Brings(bs, i) then out.node.chain.blocks[i] in bs && out.node.chain.blocks[i].id == i
                              else out.node.chain.blocks[i] == n.chain.blocks[i])
            && if bs == [] then out.msgs == [] && out.node.chain.head == n.chain.head
               else out.node.chain.head == bs[|bs| - 1].id
                    && out.msgs == [Message(Peer(n.id), Peer(command.leaderId),
                                            AppendResponse(n.id, out.node.term, bs[|bs| - 1].id, true))]
  {
    hide ExtendAll, Hangs;
    ExtendedStore(n.chain, command.blocks);
  }

  /** What a batch leaves in the store, and when it is taken. */
  lemma {:induction false} ExtendedStore(ch: ChainState, bs: seq<Block>)
    ensures ExtendAll(ch, bs).ok <==> Hangs(ch.blocks, bs)
    ensures var r := ExtendAll(ch, bs);
            r.ok ==>
              && r.chain.commit == ch.commit && r.chain.commitKey == ch.commitKey && r.chain.idGen == ch.idGen
              && r.chain.head == (if bs == [] then ch.head else bs[|bs| - 1].id)
              && (forall i :: i in r.chain.blocks <==> i in ch.blocks || Brings(bs, i))
              && (forall i :: i in r.chain.blocks ==>
                                if Brings(bs, i) then r.chain.blocks[i] in bs && r.chain.blocks[i].id == i
                                else r.chain.blocks[i] == ch.blocks[i])
    decreases bs
  {
    if bs != [] {
      HangsStep(ch, bs);
      if Extend(ch, bs[0]).ok {
        ExtendedStore(Extend(ch, bs[0]).chain, bs[1..]);
        BringsStep(bs);
        hide Hangs, Brings;
      }
    }
  }

  lemma BringsStep(bs: seq<Block>)
    requires bs != []
    ensures forall i :: Brings(bs, i) <==> bs[0].id == i || Brings(bs[1..], i)
    ensures forall b :: b in bs <==> b == bs[0] || b in bs[1..]
  {
    assert bs == [bs[0]] + bs[1..];
  }

  lemma HangsStep(ch: ChainState, bs: seq<Block>)
    requires bs != []
    ensures Hangs(ch.blocks, bs) <==> Extend(ch, bs[0]).ok && Hangs(Extend(ch, bs[0]).chain.blocks, bs[1..])
  {
    var blocks' := ch.blocks[bs[0].id := bs[0]];
    forall j | 0 <= j < |bs| - 1
      ensures (bs[j + 1].next in ch.blocks || Brings(bs[..j + 1], bs[j + 1].next)) <==>
              (bs[1..][j].next in blocks' || Brings(bs[1..][..j], bs[1..][j].next))
    {
      assert bs[..j + 1][1..] == bs[1..][..j];
      BringsStep(bs[..j + 1]);
    }
    assert !Brings(bs[..0], bs[0].next);
    if Extend(ch, bs[0]).ok && Hangs(blocks', bs[1..]) {
      forall j | 0 <= j < |bs| ensures bs[j].next in ch.blocks || Brings(bs[..j], bs[j].next) {
        if j > 0 {
          assert bs[1..][j - 1] == bs[j - 1 + 1];
        }
      }
    }
    if Hangs(ch.blocks, bs) {
      forall j | 0 <= j < |bs[1..]| ensures bs[1..][j].next in blocks' || Brings(bs[1..][..j], bs[1..][j].next) {
        assert bs[j + 1].next in ch.blocks || Brings(bs[..j + 1], bs[j + 1].next);
      }
    }
  }

  /** A heartbeat makes its sender the leader. What was queued goes to it in
      order; then comes one answer, which tells the commit pointer as it is now
      and whether the announced block is stored. */
  lemma HeartbeatAnswered(n: Node, command: Command, elapsed: bool)
    requires n.role.Follower? && n.health.Running? && command.Heartbeat?
    requires Step(n, command, elapsed).node.health.Running?
    ensures var out, has := Step(n, command, elapsed), command.commit in n.chain.blocks;
            && out.node.term == command.term && out.node.votedFor == Some(command.leaderId)
            && out.node.role.Follower? && out.node.role.leaderId == Some(command.leaderId) && out.node.role.queued == []
            && (forall id :: id in out.node.role.proxied <==>
                               id in n.role.proxied || exists i :: 0 <= i < |n.role.queued| && n.role.queued[i].id == id)
            && out.node.chain.blocks == n.chain.blocks
            && out.node.chain.commit == (if has && n.chain.commit < command.commit then command.commit else n.chain.commit)
            && |out.msgs| == |n.role.queued| + 1
            && (forall i :: 0 <= i < |n.role.queued| ==>
                              out.msgs[i] == Message(Peer(n.id), Peer(command.leaderId), Request(n.role.queued[i])))
            && out.msgs[|n.role.queued|] ==
               Message(Peer(n.id), Peer(command.leaderId), HeartbeatResponse(out.node.chain.commit, has))
  {
    hide Drain, Scan;
  }

  /** Every call gets one answer. It is a grant exactly when the follower has not
      voted, is not in a later term and has committed no more than the caller has. */
  lemma CallAnswered(n: Node, command: Command, elapsed: bool)
    requires n.role.Follower? && command.VoteRequest?
    ensures var out := Step(n, command, elapsed);
            var granted := n.votedFor.None? && n.term <= command.lastTerm && n.chain.commit <= command.head;
            && out.msgs == [Message(Peer(n.id), Peer(command.candidateId), VoteResponse(n.term, n.id, granted))]
            && out.node == if granted then n.(votedFor := Some(command.candidateId)) else n
  {
  }

  /** A request goes to the leader, with the follower's own address to answer to,
      and is remembered; without a leader it waits at the end of the queue. */
  lemma RequestForwarded(n: Node, command: Command, elapsed: bool)
    requires n.role.Follower? && command.Request?
    ensures var out, req := Step(n, command, elapsed), command.request;
            var mine := ClientRequest(req.id, Peer(n.id), req.proposal);
            && out.node == n.(role := out.node.role) && out.node.role.Follower? && out.node.role.leaderId == n.role.leaderId
            && if n.role.leaderId.Some?
               then out.msgs == [Message(Peer(n.id), Peer(n.role.leaderId.value), Request(mine))]
                    && out.node.role.proxied == n.role.proxied + {req.id} && out.node.role.queued == n.role.queued
               else out.msgs == [] && out.node.role.proxied == n.role.proxied && out.node.role.queued == n.role.queued + [mine]
  {
  }

  /** A reply that arrives is handed to the client as it is. */
  lemma ReplyHandedOn(n: Node, command: Command, elapsed: bool)
    requires n.role.Follower? && command.Response?
    ensures var out := Step(n, command, elapsed);
            && out.msgs == [Message(Peer(n.id), Client, Response(command.id, command.reply))]
            && out.node == n.(role := n.role.(proxied := n.role.proxied - {command.id}))
  {
  }

  /** What a candidacy starts with: a new term, one's own vote, and one call per
      peer that tells the term and the head. */
  ghost predicate Stands(n: Node, out: Out) {
    var term := (n.term + 1) % U64;
    && out.node == n.(term := term, votedFor := Some(n.id), role := out.node.role)
    && out.node.role == Candidate(Tally(n.peers + [n.id], map[n.id := true]), [])
    && |out.msgs| == |n.peers|
    && forall i :: 0 <= i < |n.peers| ==> out.msgs[i] == Message(Peer(n.id), Peers, VoteRequest(term, n.id, term, n.chain.head))
  }

  lemma SeekStands(n: Node, m: Node)
    requires m.role == Candidate(Tally(n.peers + [n.id], map[]), []) && n.peers != []
    requires m == n.(votedFor := m.votedFor, role := m.role)
    ensures Stands(n, SeekElection(m))
  {
    var k := m.(votedFor := Some(m.id), term := (m.term + 1) % U64);
    var t := Voted(k.role.tally, n.id, true);
    assert t.votes == map[n.id := true];
    assert Granted(t) == {n.id} && |t.votes| == 1;
    assert Status(t) == Voting;
  }

  /** A follower that has peers stands exactly when its timer has run out and it has not voted. */
  lemma TimeoutStands(n: Node, command: Command, elapsed: bool)
    requires n.role.Follower? && n.peers != [] && (command.Tick? || command.Timeout?)
    ensures if n.votedFor.None? && (command.Timeout? || elapsed) then Stands(n, Step(n, command, elapsed))
            else Step(n, command, elapsed) == Out(n, [])
  {
    hide SeekElection, Stands;
    SeekStands(n, ToCandidate(n));
  }

  // ---- Candidates ----

  /** A candidate with peers stands again, in the next term, when its timer has run out. */
  lemma CandidateStandsAgain(n: Node, elapsed: bool)
    requires n.role.Candidate? && n.peers != [] && CandidateOk(n)
    ensures if elapsed then Stands(n, Step(n, Tick, elapsed)) else Step(n, Tick, elapsed) == Out(n, [])
  {
    hide SeekElection, Stands, Status;
    SeekStands(n, ToCandidate(ToFollower(n.(votedFor := None))));
  }

  /** The follower a candidate turns into: it knows no leader and keeps what was queued. */
  function Resigned(n: Node, term: Term, votedFor: Option<NodeId>): Node
    requires n.role.Candidate?
  {
    n.(term := term, votedFor := votedFor, role := Follower(None, {}, n.role.backlog))
  }

  /** A call of a later term makes a candidate resign without a vote and without
      an answer; any other call is refused, and the candidacy goes on. */
  lemma CallAtCandidate(n: Node, command: Command, elapsed: bool)
    requires n.role.Candidate? && command.VoteRequest?
    ensures Step(n, command, elapsed) ==
            if n.term < command.term then Out(Resigned(n, command.term, None), [])
            else Out(n, [Message(Peer(n.id), Peer(command.candidateId), VoteResponse(n.term, n.id, false))])
  {
  }

  /** Entries of its own term or a later one make a candidate resign; they are
      neither stored nor answered, and the vote for itself stands. */
  lemma EntriesAtCandidate(n: Node, command: Command, elapsed: bool)
    requires n.role.Candidate? && command.AppendEntries?
    ensures Step(n, command, elapsed) == Out(if n.term <= command.term then Resigned(n, n.term, n.votedFor) else n, [])
  {
  }

  /** A heartbeat makes a candidate resign for its sender, and is answered with
      the commit pointer and whether the announced block is stored. */
  lemma HeartbeatAtCandidate(n: Node, command: Command, elapsed: bool)
    requires n.role.Candidate? && command.Heartbeat?
    ensures Step(n, command, elapsed) ==
            Out(Resigned(n, command.term, Some(command.leaderId)),
                [Message(Peer(n.id), Peer(command.leaderId),
                         HeartbeatResponse(n.chain.commit, command.commit in n.chain.blocks))])
  {
  }

  /** A request waits at the end of the queue. */
  lemma RequestAtCandidate(n: Node, command: Command, elapsed: bool)
    requires n.role.Candidate? && command.Request?
    ensures Step(n, command, elapsed) ==
            Out(n.(role := Candidate(n.role.tally, n.role.backlog + [command.request])), [])
  {
  }

  /** The members whose last word in `votes` is `granted`. */
  ghost function Saying(votes: map<NodeId, bool>, granted: bool): set<NodeId> {
    set q | q in votes && votes[q] == granted
  }

  /** A vote is recorded over any earlier one. With more than half of the voters
      for it the candidate leads, knows nothing of anyone's progress, and tells
      everybody once. With more than half against it, it resigns free to vote.
      Otherwise it goes on. */
  lemma VoteDecides(n: Node, command: Command, elapsed: bool)
    requires n.role.Candidate? && command.VoteResponse? && |n.role.tally.voters| >= 2
    requires CandidateOk(n)
    ensures var out, votes := Step(n, command, elapsed), n.role.tally.votes[command.from := command.granted];
            if 2 * |Saying(votes, true)| > |n.role.tally.voters| then
              && out.node == n.(role := Leader(map id | id in n.peers + [n.id] :: Probe(false, false, 0)))
              && out.msgs == [Message(Peer(n.id), Peers, Heartbeat(n.term, n.chain.commit, n.id))]
            else if 2 * |Saying(votes, false)| > |n.role.tally.voters| then
              out == Out(Resigned(n, n.term, None), [])
            else
              out == Out(n.(role := Candidate(Tally(n.role.tally.voters, votes), n.role.backlog)), [])
  {
    var t := Voted(n.role.tally, command.from, command.granted);
    assert Granted(t) == Saying(t.votes, true) && Declined(t) == Saying(t.votes, false);
    VoteFromOpen(n.role.tally, command.from, command.granted);
    assert FreshProgress(n.peers + [n.id]) == map id | id in n.peers + [n.id] :: Probe(false, false, 0);
  }

  /** In every execution a candidate of two or more members is decided by the
      votes it holds, against the number of members. */
  lemma VotesDecideElection(c: Cluster, p: NodeId, command: Command, elapsed: bool)
    requires Reachable(c) && |c.nodes| >= 2 && p in c.nodes && c.nodes[p].role.Candidate? && command.VoteResponse?
    ensures var n, out := c.nodes[p], Step(c.nodes[p], command, elapsed);
            var votes := n.role.tally.votes[command.from := command.granted];
            && (out.node.role.Leader? <==> 2 * |Saying(votes, true)| > |c.nodes|)
            && (out.node.role.Leader? ==> out.msgs == [Message(Peer(p), Peers, Heartbeat(n.term, n.chain.commit, p))])
            && (out.node.role.Follower? <==> 2 * |Saying(votes, true)| <= |c.nodes| < 2 * |Saying(votes, false)|)
            && (out.node.role.Follower? ==> out.node.votedFor == None)
            && (!out.node.role.Leader? ==> out.msgs == [])
  {
    hide Reachable, DataInv, Fresh, ElectionInv, Step;
    ReachableInv(c);
    ConfiguredNode(c, p);
    VotersAreMembers(c, p);
    VoteDecides(c.nodes[p], command, elapsed);
  }

  lemma VotersAreMembers(c: Cluster, p: NodeId)
    requires Configured(c) && p in c.nodes && CandidateOk(c.nodes[p]) && c.nodes[p].role.Candidate?
    ensures |c.nodes[p].role.tally.voters| == |c.nodes| && c.nodes[p].id == p
  {
    EnumerationLength(c.nodes[p].peers, c.nodes.Keys - {p});
    assert |c.nodes| == |c.nodes.Keys| == |c.nodes.Keys - {p}| + 1;
  }

  /** In every execution every heartbeat at a follower is answered. */
  lemma HeartbeatsAnswered(c: Cluster, p: NodeId, command: Command, elapsed: bool)
    requires Reachable(c) && p in c.nodes && c.nodes[p].role.Follower? && c.nodes[p].health.Running?
    requires Enabled(c, p, command) && command.Heartbeat?
    ensures var n, out := c.nodes[p], Step(c.nodes[p], command, elapsed);
            && out.node.health.Running? && |out.msgs| == |n.role.queued| + 1
            && out.msgs[|n.role.queued|] ==
               Message(Peer(n.id), Peer(command.leaderId),
                       HeartbeatResponse(out.node.chain.commit, command.commit in n.chain.blocks))
  {
    hide Reachable, Step, Enabled;
    StepFate(c, p, command, elapsed);
    HeartbeatAnswered(c.nodes[p], command, elapsed);
  }

  // ---- The leader ----

  /** What is offered to member `p`: the blocks after the head it has acknowledged,
      one for a probe, up to MAX_INFLIGHT otherwise, and all if there are fewer. */
  ghost predicate Offer(n: Node, p: NodeId, m: Message)
    requires n.role.Leader? && p in n.role.progress
  {
    var q := n.role.progress[p];
    && m.from == Peer(n.id) && m.to == Peer(p) && m.command.AppendEntries?
    && m.command.term == n.term && m.command.leaderId == n.id
    && q.head <= n.chain.head
    && |m.command.blocks| == Min(n.chain.head - q.head, if q.Probe? then 1 else MAX_INFLIGHT)
    && RunOf(n.chain.blocks, m.command.blocks, q.head + 1)
  }

  /** One offer to each target, in order. */
  ghost predicate Offers(n: Node, targets: seq<NodeId>, msgs: seq<Message>)
    requires n.role.Leader?
  {
    && |msgs| == |targets|
    && forall i :: 0 <= i < |targets| ==> targets[i] in n.role.progress && Offer(n, targets[i], msgs[i])
  }

  lemma {:induction false} ReplicateOffers(n: Node, targets: seq<NodeId>)
    requires n.role.Leader? && KeyedById(n.chain) && Dense(n.chain, n.chain.head)
    requires AllActive(n.role.progress) && NoSnapshot(n.role.progress) && ReplicateTo(n, targets).ok
    requires forall p :: p in targets ==> p in n.role.progress
    requires forall p :: p in n.role.progress ==> n.role.progress[p].head <= n.chain.head
    ensures Offers(n, targets, ReplicateTo(n, targets).msgs)
    decreases targets
  {
    hide BatchScan, Dense, KeyedById, RunOf, IsActive;
    if targets != [] {
      BatchSize(n.chain, n.role.progress[targets[0]]);
      ReplicateOffers(n, targets[1..]);
    }
  }

  lemma LeaderOffers(c: Cluster, l: NodeId)
    requires Reachable(c) && IsLeader(c, l) && LeaderReplicate(c.nodes[l]).node.health.Running?
    ensures LeaderReplicate(c.nodes[l]).node == c.nodes[l]
    ensures Offers(c.nodes[l], c.nodes[l].peers, LeaderReplicate(c.nodes[l]).msgs)
  {
    hide Reachable, DataInv, Ledger, ReplicateTo, AllActive, Dense, KeyedById, Offers;
    LeaderSound(c, l);
    ReachableInv(c);
    PeersTracked(c, l);
    ReplicateOffers(c.nodes[l], c.nodes[l].peers);
  }

  lemma PeersTracked(c: Cluster, l: NodeId)
    requires Inv(c) && IsLeader(c, l) && c.nodes[l].role.progress.Keys == c.nodes.Keys
    ensures forall p :: p in c.nodes[l].peers ==> p in c.nodes[l].role.progress
  {
    hide DataInv, Fresh;
    ConfiguredNode(c, l);
    assert forall p :: p in c.nodes[l].peers ==> p in c.nodes.Keys - {l};
  }

  /** On a tick that does not stop it the leader tells everybody its commit
      pointer if it is time, and offers each peer what it lacks. */
  lemma TickOffers(c: Cluster, l: NodeId, elapsed: bool)
    requires Reachable(c) && IsLeader(c, l) && Step(c.nodes[l], Tick, elapsed).node.health.Running?
    ensures var n, out := c.nodes[l], Step(c.nodes[l], Tick, elapsed);
            var beat := if elapsed then [Message(Peer(n.id), Peers, Heartbeat(n.term, n.chain.commit, n.id))] else [];
            && out.node == n && beat <= out.msgs && Offers(n, n.peers, out.msgs[|beat|..])
  {
    hide Reachable, LeaderReplicate, Offers;
    LeaderOffers(c, l);
    var out := Step(c.nodes[l], Tick, elapsed);
    assert out.msgs[if elapsed then 1 else 0..] == LeaderReplicate(c.nodes[l]).msgs;
  }

  /** To a member that has committed something and lacks what was announced, and
      to no other, the leader answers by offering each peer what it lacks. */
  lemma AnswerOffers(c: Cluster, l: NodeId, command: Command, elapsed: bool)
    requires Reachable(c) && IsLeader(c, l) && command.HeartbeatResponse?
    requires Step(c.nodes[l], command, elapsed).node.health.Running?
    ensures var n, out := c.nodes[l], Step(c.nodes[l], command, elapsed);
            && out.node == n
            && if !command.hasCommitted && command.commit > 0 then Offers(n, n.peers, out.msgs) else out.msgs == []
  {
    hide Reachable, LeaderReplicate, Offers;
    if !command.hasCommitted && command.commit > 0 {
      LeaderOffers(c, l);
    }
  }

  /** A member that takes entries: a probe that is not paused, or a replicating
      member with room for one more batch. */
  ghost predicate Takes(p: Progress, id: NodeId) {
    id in p && match p[id]
               case Probe(paused, _, _) => !paused
               case Replicate(inflight, _, _) => |inflight| < 5
               case Snapshot(_, _, _) => false
  }

  lemma {:induction false} ReplicateReaches(n: Node, targets: seq<NodeId>, p: NodeId)
    requires n.role.Leader? && ReplicateTo(n, targets).ok
    ensures (exists m :: m in ReplicateTo(n, targets).msgs && m.to == Peer(p)) <==> p in targets && Takes(n.role.progress, p)
    decreases targets
  {
    hide BatchScan;
    if targets != [] {
      var t, rest := targets[0], ReplicateTo(n, targets[1..]).msgs;
      ReplicateReaches(n, targets[1..], p);
      assert targets == [t] + targets[1..];
      if Takes(n.role.progress, t) {
        var first := ReplicateTo(n, targets).msgs[0];
        assert first.to == Peer(t) && ReplicateTo(n, targets).msgs == [first] + rest;
        assert first in ReplicateTo(n, targets).msgs;
      }
    }
  }

  /** Whatever the progress of its peers, a tick that does not stop a leader
      reaches exactly those that take entries. */
  lemma TickReaches(n: Node, p: NodeId, elapsed: bool)
    requires n.role.Leader? && n.health.Running? && Step(n, Tick, elapsed).node.health.Running?
    ensures (exists m :: m in Step(n, Tick, elapsed).msgs && m.to == Peer(p)) <==> p in n.peers && Takes(n.role.progress, p)
  {
    hide ReplicateTo, Takes;
    ReplicateReaches(n, n.peers, p);
    assert forall m :: m in Step(n, Tick, elapsed).msgs && m.to == Peer(p) ==> m in ReplicateTo(n, n.peers).msgs;
  }

  /** An acknowledgement raises what is known of its sender to the block it
      names and nothing else; the commit pointer follows the majority. */
  lemma AckRecorded(c: Cluster, l: NodeId, command: Command, elapsed: bool)
    requires Reachable(c) && IsLeader(c, l) && c.nodes[l].health.Running? && Enabled(c, l, command) && command.AppendResponse?
    ensures var n, out := c.nodes[l], Step(c.nodes[l], command, elapsed);
            && out.msgs == [] && out.node.health.Running? && out.node.role.Leader?
            && out.node.term == n.term && out.node.votedFor == n.votedFor
            && out.node.chain.blocks == n.chain.blocks && out.node.chain.head == n.chain.head
            && command.nodeId in n.role.progress && out.node.role.progress.Keys == n.role.progress.Keys
            && (forall p :: p in n.role.progress && p != command.nodeId ==> out.node.role.progress[p] == n.role.progress[p])
            && IsQuorumIndex(Heads(out.node.role.progress), out.node.chain.commit)
            && var was, now := n.role.progress[command.nodeId], out.node.role.progress[command.nodeId];
               && now.head == (if was.head < command.head then command.head else was.head)
               && (now.Replicate? <==> was.head < command.head) && !now.Snapshot?
  {
    hide Reachable, DataInv, Ledger, LeaderAppendResponse, AllActive, Dense, KeyedById, IsQuorumIndex;
    LeaderSound(c, l);
    DeliveredAck(c, l, l, command);
    StepFate(c, l, command, elapsed);
    var n := c.nodes[l];
    AckEffect(n, command.nodeId, command.head);
    StepSettles(c, l, command, elapsed);
  }

  lemma AckEffect(n: Node, node: NodeId, head: BlockId)
    requires n.role.Leader? && node in n.role.progress && !n.role.progress[node].Snapshot?
    ensures var k := LeaderAppendResponse(n, node, head);
            && k.role == Leader(AdvanceNode(n.role.progress, Ack(node, head)))
            && k.id == n.id && k.peers == n.peers && k.term == n.term && k.votedFor == n.votedFor
            && k.chain.blocks == n.chain.blocks && k.chain.head == n.chain.head && k.chain.idGen == n.chain.idGen
  {
    hide Drain, Scan, ScanThrough, QuorumIndex, MajorityReached;
  }

  /** After any command a leader that runs has committed exactly what a majority has reached. */
  lemma StepSettles(c: Cluster, l: NodeId, command: Command, elapsed: bool)
    requires Reachable(c) && IsLeader(c, l) && c.nodes[l].health.Running? && Enabled(c, l, command)
    requires Step(c.nodes[l], command, elapsed).node.health.Running?
    ensures var k := Step(c.nodes[l], command, elapsed).node;
            k.role.Leader? && IsQuorumIndex(Heads(k.role.progress), k.chain.commit)
  {
    hide Reachable, Step, DataInv, Enabled, IsQuorumIndex;
    var out := Step(c.nodes[l], command, elapsed);
    var c' := Cluster(c.nodes[l := out.node], c.net + (set m | m in out.msgs), c.accepted + Taken(c.nodes[l], command));
    ReachableStep(c, Handle(l, command, elapsed), c');
    ReachableInv(c);
    PeerSound(c, l);
    StepElectoral(c.nodes[l], command, elapsed);
    assert IsLeader(c', l);
    LeaderCommitsQuorum(c', l);
  }

  /** A running leader's commit pointer is the largest id a majority has reached. */
  lemma LeaderCommitsQuorum(c: Cluster, l: NodeId)
    requires Reachable(c) && IsLeader(c, l) && c.nodes[l].health.Running?
    ensures IsQuorumIndex(Heads(c.nodes[l].role.progress), c.nodes[l].chain.commit)
  {
    hide Reachable, DataInv, Exposed;
    ReachableKey(c, l);
    LeaderData(c, l);
    LeaderMajority(c, l);
    var heads := Heads(c.nodes[l].role.progress);
    assert l in heads;
    hide MajorityReached;
    QuorumReaches(heads, c.nodes[l].chain.commit);
    QuorumReaches(heads, c.nodes[l].chain.commit + 1);
  }

  /** A request becomes the next block, is announced with the address to answer
      to, and counts as acknowledged by the leader itself. */
  lemma RequestAppended(c: Cluster, l: NodeId, command: Command, elapsed: bool)
    requires Reachable(c) && IsLeader(c, l) && c.nodes[l].health.Running? && Enabled(c, l, command) && command.Request?
    requires Step(c.nodes[l], command, elapsed).node.health.Running?
    ensures var n, out, req := c.nodes[l], Step(c.nodes[l], command, elapsed), command.request;
            var id := n.chain.head + 1;
            && out.msgs == [] && id < U64 && out.node.role.Leader? && out.node.term == n.term && out.node.votedFor == n.votedFor
            && out.node.chain.head == id && out.node.chain.blocks == n.chain.blocks[id := Block(id, n.chain.head, req.proposal)]
            && n.log + [Notify(req.id, req.address, id)] <= out.node.log
            && out.node.role.progress.Keys == n.role.progress.Keys && l in n.role.progress
            && out.node.role.progress[l].head == id
            && (forall p :: p in n.role.progress && p != l ==> out.node.role.progress[p] == n.role.progress[p])
            && IsQuorumIndex(Heads(out.node.role.progress), out.node.chain.commit)
  {
    hide Reachable, DataInv, LeaderAppendResponse, AllActive, Dense, KeyedById, IsQuorumIndex;
    LeaderSound(c, l);
    StepSettles(c, l, command, elapsed);
    var n, req := c.nodes[l], command.request;
    AppendOk(n.chain, req, c.accepted);
    hide Ledger;
    var r := Append(n.chain, req.proposal);
    var m := n.(chain := r.chain, log := n.log + [Notify(req.id, req.address, r.chain.head)]);
    AckEffect(m, l, r.chain.head);
    AckLogs(m, l, r.chain.head);
  }

  lemma AckLogs(n: Node, node: NodeId, head: BlockId)
    requires n.role.Leader?
    ensures n.log <= LeaderAppendResponse(n, node, head).log
  {
    hide Drain, Scan, ScanThrough, QuorumIndex, MajorityReached;
  }

  // ---- Where the source gives up ----

  /** Entries of a later term end a leader, whose role has no way to take a term. */
  lemma EntriesAtLeader(n: Node, command: Command, elapsed: bool)
    requires n.role.Leader? && n.health.Running? && command.AppendEntries?
    ensures Step(n, command, elapsed).msgs == []
    ensures Step(n, command, elapsed).node.health ==
            if n.term < command.term then Stopped(LeaderTermUnimplemented) else Running
  {
  }

  /** An acknowledgement by someone who is no member ends the leader. */
  lemma AckOfStranger(n: Node, command: Command, elapsed: bool)
    requires n.role.Leader? && command.AppendResponse? && command.nodeId !in n.role.progress
    ensures Step(n, command, elapsed).node.health == Stopped(UnknownMember)
  {
  }

  /** A candidate that finds itself elected when its timer has run out ends. */
  lemma ElectedTooLate(n: Node)
    requires n.role.Candidate? && |n.role.tally.voters| >= 2
    requires 2 * |Saying(n.role.tally.votes, true)| > |n.role.tally.voters|
    ensures Step(n, Tick, true).node.health == Stopped(ElectedWhileVoting)
  {
    assert Granted(n.role.tally) == Saying(n.role.tally.votes, true);
    GrantedAtMostVotes(n.role.tally);
  }

  // ---- Commands that are not for a role ----

  /** Commands a role has no use for change nothing and are not answered. */
  lemma Ignored(n: Node, command: Command, elapsed: bool)
    requires match n.role
             case Follower(_, _, _) =>
               command.Propose? || command.Noop? || command.VoteResponse? || command.AppendResponse? || command.HeartbeatResponse?
             case Candidate(_, _) =>
               command.Propose? || command.Noop? || command.Timeout? || command.AppendResponse? || command.HeartbeatResponse?
               || command.Response?
             case Leader(_) =>
               command.Propose? || command.Noop? || command.Timeout? || command.VoteRequest? || command.VoteResponse?
               || command.Heartbeat? || command.Response? || (command.AppendEntries? && command.term <= n.term)
    ensures Step(n, command, elapsed) == Out(n, [])
  {
  }
}
