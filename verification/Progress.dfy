/** How far the leader knows each member to have replicated. */
module ProgressTracking {
  import opened RaftTypes
  import opened Elections

  const MAX_INFLIGHT: nat := 5

  datatype NodeProgress =
    | Probe(paused: bool, active: bool, head: BlockId)
    | Replicate(inflight: seq<u64>, active: bool, head: BlockId)
    | Snapshot(pending: Option<u64>, active: bool, head: BlockId)

  type Progress = map<NodeId, NodeProgress>

  function NewProgress(): NodeProgress {
    Probe(false, false, 0)
  }

  function FreshProgress(ids: seq<NodeId>): Progress {
    map id | id in ids :: NewProgress()
  }

  function Advanced(p: NodeProgress, id: BlockId): (r: NodeProgress)
    requires !p.Snapshot?
    ensures !r.Snapshot?
    ensures r.head == if p.head < id then id else p.head
    ensures r.Replicate? <==> p.head < id
    ensures r.active == p.active
    ensures r.Replicate? ==> r.inflight == if p.Replicate? then p.inflight else []
    ensures r.Probe? ==> r.paused == (p.Probe? && p.paused)
  {
    match p
    case Probe(_, active, head) => if head < id then Replicate([], active, id) else p
    case Replicate(inflight, active, head) => if head < id then Replicate(inflight, active, id) else Probe(false, active, head)
  }

  /** A replicating member's in-flight queue is allocated with MAX_INFLIGHT slots. */
  function IsActive(p: NodeProgress): bool {
    match p
    case Probe(paused, _, _) => !paused
    case Replicate(inflight, _, _) => MAX_INFLIGHT > |inflight|
    case Snapshot(_, active, _) => active
  }

  ghost predicate AllActive(p: Progress) {
    forall id :: id in p ==> IsActive(p[id])
  }

  ghost predicate NoSnapshot(p: Progress) {
    forall id :: id in p ==> !p[id].Snapshot?
  }

  function Heads(p: Progress): map<NodeId, BlockId> {
    map id | id in p :: p[id].head
  }

  // ---- The quorum index ----

  /** The members whose head is at least `v`. */
  ghost function Reached(heads: map<NodeId, BlockId>, v: nat): set<NodeId> {
    set id | id in heads && heads[id] >= v
  }

  ghost predicate MajorityReached(heads: map<NodeId, BlockId>, v: nat) {
    2 * |Reached(heads, v)| > |heads|
  }

  /** The largest value a strict majority of the members has reached. */
  ghost predicate IsQuorumIndex(heads: map<NodeId, BlockId>, v: BlockId) {
    && MajorityReached(heads, v)
    && forall w: BlockId :: w > v ==> !MajorityReached(heads, w)
  }

  ghost function QuorumIndex(heads: map<NodeId, BlockId>): (v: BlockId)
    requires heads != map[]
    ensures IsQuorumIndex(heads, v)
  {
    QuorumIndexExists(heads);
    var v :| IsQuorumIndex(heads, v);
    v
  }

  function CountGe(s: seq<BlockId>, v: nat): nat {
    if s == [] then 0 else CountGe(s[..|s| - 1], v) + if s[|s| - 1] >= v then 1 else 0
  }

  ghost predicate Descending(s: seq<BlockId>) {
    forall i, j :: 0 <= i < j < |s| ==> s[i] >= s[j]
  }

  lemma {:induction false} CountBounds(s: seq<BlockId>, v: nat, m: nat)
    requires m <= |s|
    ensures CountGe(s, v) <= |s|
    ensures (forall k :: 0 <= k < m ==> s[k] >= v) ==> CountGe(s, v) >= m
    ensures (forall k :: m <= k < |s| ==> s[k] < v) ==> CountGe(s, v) <= m
  {
    if s != [] {
      CountBounds(s[..|s| - 1], v, if m == |s| then m - 1 else m);
    }
  }

  /** The middle element of a descending sequence is the quorum value of its elements. */
  lemma MiddleIsQuorum(s: seq<BlockId>)
    requires s != [] && Descending(s)
    ensures 2 * CountGe(s, s[|s| / 2]) > |s|
    ensures forall w: BlockId :: w > s[|s| / 2] ==> 2 * CountGe(s, w) <= |s|
  {
    var mid := |s| / 2;
    CountBounds(s, s[mid], mid + 1);
    forall w: BlockId | w > s[mid]
      ensures 2 * CountGe(s, w) <= |s|
    {
      CountBounds(s, w, mid);
    }
  }

  function InsertDescending(s: seq<BlockId>, x: BlockId): seq<BlockId> {
    if s == [] || s[|s| - 1] >= x then s + [x]
    else InsertDescending(s[..|s| - 1], x) + [s[|s| - 1]]
  }

  function SortDescending(s: seq<BlockId>): seq<BlockId> {
    if s == [] then [] else InsertDescending(SortDescending(s[..|s| - 1]), s[|s| - 1])
  }

  lemma {:induction false} InsertPermutes(s: seq<BlockId>, x: BlockId)
    ensures multiset(InsertDescending(s, x)) == multiset(s) + multiset{x}
  {
    if s != [] {
      assert s == s[..|s| - 1] + [s[|s| - 1]];
      InsertPermutes(s[..|s| - 1], x);
    }
  }

  lemma {:induction false} InsertKeepsOrder(s: seq<BlockId>, x: BlockId)
    requires Descending(s)
    ensures Descending(InsertDescending(s, x))
  {
    if s != [] && s[|s| - 1] < x {
      var front, last := s[..|s| - 1], s[|s| - 1];
      InsertKeepsOrder(front, x);
      InsertPermutes(front, x);
      var rest := InsertDescending(front, x);
      forall y | y in rest
        ensures y >= last
      {
        assert y in multiset(front) + multiset{x};
      }
      DescendingSnoc(rest, last);
    }
  }

  lemma DescendingSnoc(s: seq<BlockId>, x: BlockId)
    requires Descending(s) && forall y :: y in s ==> y >= x
    ensures Descending(s + [x])
  {
    assert forall i :: 0 <= i < |s| ==> s[i] in s;
  }

  lemma {:induction false} InsertCounts(s: seq<BlockId>, x: BlockId, v: nat)
    ensures CountGe(InsertDescending(s, x), v) == CountGe(s, v) + if x >= v then 1 else 0
  {
    if s == [] || s[|s| - 1] >= x {
      assert (s + [x])[..|s|] == s;
    } else {
      var rest := InsertDescending(s[..|s| - 1], x);
      assert (rest + [s[|s| - 1]])[..|rest|] == rest;
      InsertCounts(s[..|s| - 1], x, v);
    }
  }

  /** Sorting yields a descending permutation. */
  lemma {:induction false} SortFacts(s: seq<BlockId>)
    ensures Descending(SortDescending(s))
    ensures multiset(SortDescending(s)) == multiset(s)
    ensures |SortDescending(s)| == |s|
    ensures forall v: nat :: CountGe(SortDescending(s), v) == CountGe(s, v)
  {
    if s != [] {
      var front, last := s[..|s| - 1], s[|s| - 1];
      assert s == front + [last];
      SortFacts(front);
      InsertKeepsOrder(SortDescending(front), last);
      InsertPermutes(SortDescending(front), last);
      forall v: nat
        ensures CountGe(SortDescending(s), v) == CountGe(s, v)
      {
        InsertCounts(SortDescending(front), last, v);
      }
      assert |multiset(SortDescending(s))| == |SortDescending(s)| && |multiset(s)| == |s|;
    }
  }

  /** The heads of a set of members, in some order: the counts do not depend on it. */
  ghost predicate Gathers(heads: map<NodeId, BlockId>, members: set<NodeId>, s: seq<BlockId>) {
    && |s| == |members|
    && members <= heads.Keys
    && forall v: nat :: CountGe(s, v) == |Reached(heads, v) * members|
  }

  lemma GatherOne(heads: map<NodeId, BlockId>, members: set<NodeId>, s: seq<BlockId>, id: NodeId)
    requires Gathers(heads, members, s) && id in heads && id !in members
    ensures Gathers(heads, members + {id}, s + [heads[id]])
  {
    forall v: nat
      ensures CountGe(s + [heads[id]], v) == |Reached(heads, v) * (members + {id})|
    {
      assert (s + [heads[id]])[..|s|] == s;
      var before := Reached(heads, v) * members;
      assert Reached(heads, v) * (members + {id}) == if heads[id] >= v then before + {id} else before;
    }
  }

  lemma {:induction false} GatherAll(heads: map<NodeId, BlockId>, members: set<NodeId>) returns (s: seq<BlockId>)
    requires members <= heads.Keys
    ensures Gathers(heads, members, s)
    decreases members
  {
    if members == {} {
      s := [];
      assert forall v: nat :: Reached(heads, v) * members == {};
    } else {
      var id :| id in members;
      var rest := GatherAll(heads, members - {id});
      GatherOne(heads, members - {id}, rest, id);
      assert members - {id} + {id} == members;
      s := rest + [heads[id]];
    }
  }

  lemma SortedMiddle(heads: map<NodeId, BlockId>, s: seq<BlockId>)
    requires heads != map[] && Gathers(heads, heads.Keys, s)
    ensures s != [] && |SortDescending(s)| == |s|
    ensures IsQuorumIndex(heads, SortDescending(s)[|s| / 2])
  {
    hide SortDescending, CountGe, Descending;
    SortFacts(s);
    assert |heads| == |heads.Keys|;
    MiddleIsQuorum(SortDescending(s));
    hide Reached;
    forall v: nat ensures MajorityReached(heads, v) <==> 2 * CountGe(SortDescending(s), v) > |s| {
      ReachedAll(heads, v);
    }
  }

  lemma ReachedAll(heads: map<NodeId, BlockId>, v: nat)
    ensures Reached(heads, v) * heads.Keys == Reached(heads, v)
  {
  }

  lemma QuorumIndexExists(heads: map<NodeId, BlockId>)
    requires heads != map[]
    ensures exists v :: IsQuorumIndex(heads, v)
  {
    var s := GatherAll(heads, heads.Keys);
    SortedMiddle(heads, s);
  }

  lemma QuorumIndexUnique(heads: map<NodeId, BlockId>, v: BlockId)
    requires heads != map[] && IsQuorumIndex(heads, v)
    ensures v == QuorumIndex(heads)
  {
  }

  lemma QuorumIndexMonotone(old_: map<NodeId, BlockId>, new_: map<NodeId, BlockId>)
    requires old_ != map[] && old_.Keys == new_.Keys
    requires forall id :: id in old_ ==> old_[id] <= new_[id]
    ensures forall v: nat :: MajorityReached(old_, v) ==> MajorityReached(new_, v)
    ensures QuorumIndex(old_) <= QuorumIndex(new_)
  {
    assert |old_| == |old_.Keys| == |new_|;
    forall v: nat
      ensures MajorityReached(old_, v) ==> MajorityReached(new_, v)
    {
      SubsetSize(Reached(old_, v), Reached(new_, v));
    }
    var q := QuorumIndex(old_);
    assert MajorityReached(new_, q);
  }

  // ---- Sequences of advances ----

  datatype Ack = Ack(node: NodeId, head: BlockId)

  ghost predicate Tracks(p: Progress, members: set<NodeId>) {
    p.Keys == members && members != {} && NoSnapshot(p)
  }

  function AdvanceNode(p: Progress, ack: Ack): Progress
    requires ack.node in p && !p[ack.node].Snapshot?
  {
    p[ack.node := Advanced(p[ack.node], ack.head)]
  }

  ghost function AdvanceAll(p: Progress, members: set<NodeId>, acks: seq<Ack>): Progress
    requires Tracks(p, members) && forall i :: 0 <= i < |acks| ==> acks[i].node in members
    decreases acks
  {
    if acks == [] then p else AdvanceAll(AdvanceNode(p, acks[0]), members, acks[1..])
  }

  lemma AdvanceRaises(p: Progress, members: set<NodeId>, ack: Ack)
    requires Tracks(p, members) && ack.node in members
    ensures Tracks(AdvanceNode(p, ack), members)
    ensures forall id :: id in p ==> p[id].head <= AdvanceNode(p, ack)[id].head
    ensures Heads(p) != map[] && Heads(AdvanceNode(p, ack)) != map[]
    ensures QuorumIndex(Heads(p)) <= QuorumIndex(Heads(AdvanceNode(p, ack)))
    ensures forall v: nat :: MajorityReached(Heads(p), v) ==> MajorityReached(Heads(AdvanceNode(p, ack)), v)
  {
    assert ack.node in Heads(p) && ack.node in Heads(AdvanceNode(p, ack));
    QuorumIndexMonotone(Heads(p), Heads(AdvanceNode(p, ack)));
  }

  /** Along any sequence of acknowledgements the member set is fixed, no member
      turns to Snapshot, no head moves back and the quorum index only grows. */
  lemma {:induction false} AdvancesOnlyRaise(p: Progress, members: set<NodeId>, acks: seq<Ack>)
    requires Tracks(p, members) && forall i :: 0 <= i < |acks| ==> acks[i].node in members
    ensures Tracks(AdvanceAll(p, members, acks), members)
    ensures forall id :: id in members ==> p[id].head <= AdvanceAll(p, members, acks)[id].head
    ensures Heads(p) != map[] && Heads(AdvanceAll(p, members, acks)) != map[]
    ensures QuorumIndex(Heads(p)) <= QuorumIndex(Heads(AdvanceAll(p, members, acks)))
    decreases acks
  {
    var one :| one in members;
    assert one in Heads(p);
    if acks != [] {
      AdvanceRaises(p, members, acks[0]);
      AdvancesOnlyRaise(AdvanceNode(p, acks[0]), members, acks[1..]);
    }
  }

  class ReplicationProgress {
    var progress: Progress

    constructor (nodes: seq<NodeId>)
      requires nodes != []
      ensures progress == FreshProgress(nodes)
    {
      var fresh_: Progress := map[];
      for i := 0 to |nodes|
        invariant fresh_ == FreshProgress(nodes[..i])
      {
        fresh_ := fresh_[nodes[i] := NewProgress()];
      }
      assert nodes[..|nodes|] == nodes;
      progress := fresh_;
    }

    /** `ok` is false where the source panics: an unknown node, or a snapshot. */
    method Advance(node: NodeId, head: BlockId) returns (ok: bool)
      modifies this
      ensures ok <==> node in old(progress) && !old(progress)[node].Snapshot?
      ensures ok ==> progress == AdvanceNode(old(progress), Ack(node, head))
      ensures !ok ==> progress == old(progress) - {node}
    {
      if node !in progress {
        return false;
      }
      var p := progress[node];
      progress := progress - {node};
      if p.Snapshot? {
        return false;
      }
      progress := progress[node := Advanced(p, head)];
      return true;
    }

    /** Collects the heads in whatever order the map yields them, sorts them
        in descending order and takes the middle one. */
    method CommittedIndex() returns (index: Option<BlockId>)
      ensures index.Some? <==> NoSnapshot(progress) && progress != map[]
      ensures index.Some? ==> Heads(progress) != map[] && IsQuorumIndex(Heads(progress), index.value)
      ensures index.Some? ==> index.value == QuorumIndex(Heads(progress))
    {
      var todo, indices := progress.Keys, [];
      ghost var done: set<NodeId> := {};
      assert Gathers(Heads(progress), done, indices) by {
        assert forall v: nat :: Reached(Heads(progress), v) * done == {};
      }
      while todo != {}
        invariant todo !! done && todo + done == progress.Keys
        invariant Gathers(Heads(progress), done, indices)
        invariant forall id :: id in done ==> !progress[id].Snapshot?
        decreases todo
      {
        var id :| id in todo;
        if progress[id].Snapshot? {
          return None;
        }
        GatherOne(Heads(progress), done, indices, id);
        indices := indices + [progress[id].head];
        todo := todo - {id};
        done := done + {id};
      }
      if indices == [] {
        return None;
      }
      assert Heads(progress).Keys == progress.Keys == done;
      SortedMiddle(Heads(progress), indices);
      indices := SortDescending(indices);
      index := Some(indices[|indices| / 2]);
      QuorumIndexUnique(Heads(progress), index.value);
    }
  }
}
