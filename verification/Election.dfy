/** The vote tally of one candidacy. */
module Elections {
  import opened RaftTypes

  datatype Tally = Tally(voters: seq<NodeId>, votes: map<NodeId, bool>)

  datatype ElectionStatus = Elected | Voting | Defeated

  function Granted(t: Tally): set<NodeId> {
    set id | id in t.votes && t.votes[id]
  }

  function Declined(t: Tally): set<NodeId> {
    set id | id in t.votes && !t.votes[id]
  }

  function QuorumSize(t: Tally): nat {
    if |t.voters| == 1 then 0 else |t.voters| / 2 + 1
  }

  function Voted(t: Tally, id: NodeId, granted: bool): Tally {
    t.(votes := t.votes[id := granted])
  }

  /** The (granted, total) accumulator after visiting the votes in the given order. */
  function FoldVotes(votes: map<NodeId, bool>, order: seq<NodeId>): (nat, nat)
    requires forall id :: id in order ==> id in votes
  {
    if order == [] then (0, 0)
    else
      var (granted, total) := FoldVotes(votes, order[..|order| - 1]);
      (granted + if votes[order[|order| - 1]] then 1 else 0, total + 1)
  }

  function StatusOf(granted: nat, total: nat, quorum: nat): ElectionStatus
    requires granted <= total
  {
    if granted >= quorum then Elected
    else if total - granted == quorum then Defeated
    else Voting
  }

  function Status(t: Tally): ElectionStatus {
    GrantedAtMostVotes(t);
    StatusOf(|Granted(t)|, |t.votes|, QuorumSize(t))
  }

  lemma GrantedAtMostVotes(t: Tally)
    ensures |Granted(t)| + |Declined(t)| == |t.votes|
  {
    assert Granted(t) + Declined(t) == t.votes.Keys;
    assert Granted(t) !! Declined(t);
  }

  ghost predicate Enumerates(order: seq<NodeId>, s: set<NodeId>) {
    && (forall x :: x in order <==> x in s)
    && (forall i, j :: 0 <= i < j < |order| ==> order[i] != order[j])
  }

  ghost function Yeas(votes: map<NodeId, bool>, order: seq<NodeId>): set<NodeId> {
    set id | id in order && id in votes && votes[id]
  }

  lemma {:induction false} FoldPrefix(t: Tally, order: seq<NodeId>)
    requires forall id :: id in order ==> id in t.votes
    requires forall i, j :: 0 <= i < j < |order| ==> order[i] != order[j]
    ensures FoldVotes(t.votes, order).0 == |Yeas(t.votes, order)|
    ensures FoldVotes(t.votes, order).1 == |order|
  {
    if order != [] {
      var front, last := order[..|order| - 1], order[|order| - 1];
      FoldPrefix(t, front);
      assert last !in front;
      assert order == front + [last];
      var before := Yeas(t.votes, front);
      assert Yeas(t.votes, order) == if t.votes[last] then before + {last} else before;
    }
  }

  lemma NothingFolded(votes: map<NodeId, bool>, s: set<NodeId>)
    requires s == {}
    ensures FoldVotes(votes, []) == (0, 0) && Enumerates([], s)
  {
  }

  lemma FoldSnoc(votes: map<NodeId, bool>, order: seq<NodeId>, id: NodeId)
    requires id in votes && forall x :: x in order ==> x in votes
    ensures FoldVotes(votes, order + [id]) ==
            (FoldVotes(votes, order).0 + (if votes[id] then 1 else 0), FoldVotes(votes, order).1 + 1)
  {
    assert (order + [id])[..|order|] == order;
  }

  lemma EnumerateSnoc(order: seq<NodeId>, s: set<NodeId>, id: NodeId)
    requires Enumerates(order, s) && id !in s
    ensures Enumerates(order + [id], s + {id})
  {
  }

  lemma {:induction false} EnumerationLength(order: seq<NodeId>, s: set<NodeId>)
    requires Enumerates(order, s)
    ensures |order| == |s|
    decreases order
  {
    if order != [] {
      var front, last := order[..|order| - 1], order[|order| - 1];
      assert order == front + [last];
      EnumerationLength(front, s - {last});
    } else {
      assert s == {};
    }
  }

  /** The outcome does not depend on the order the votes are visited in. */
  lemma StatusOfAnyOrder(t: Tally, order: seq<NodeId>)
    requires Enumerates(order, t.votes.Keys)
    ensures FoldVotes(t.votes, order).0 <= FoldVotes(t.votes, order).1
    ensures StatusOf(FoldVotes(t.votes, order).0, FoldVotes(t.votes, order).1, QuorumSize(t)) == Status(t)
  {
    FoldPrefix(t, order);
    EnumerationLength(order, t.votes.Keys);
    assert Yeas(t.votes, order) == Granted(t);
    GrantedAtMostVotes(t);
  }

  /** A tally still open: neither side has reached the quorum. */
  ghost predicate Open(t: Tally) {
    Status(t) == Voting && |Declined(t)| < QuorumSize(t)
  }

  /** The defeat test is an equality, yet starting from an open tally it fires
      exactly when the refusals have reached the quorum. Overwriting an
      earlier vote cannot carry the count past it. */
  lemma VoteFromOpen(t: Tally, id: NodeId, granted: bool)
    requires Open(t) || (t.votes == map[] && |t.voters| > 0)
    ensures Status(Voted(t, id, granted)) == Voting ==> Open(Voted(t, id, granted))
    ensures Status(Voted(t, id, granted)) == Defeated <==>
            |Granted(Voted(t, id, granted))| < QuorumSize(t) <= |Declined(Voted(t, id, granted))|
  {
    var t' := Voted(t, id, granted);
    GrantedAtMostVotes(t');
    assert Declined(t') <= Declined(t) + {id};
    if granted {
      assert id !in Declined(t');
      SubsetSize(Declined(t'), Declined(t));
    } else {
      SubsetSize(Declined(t'), Declined(t) + {id});
    }
    if t.votes == map[] {
      assert Declined(t) == {};
    }
  }

  lemma {:induction false} SubsetSize<T>(a: set<T>, b: set<T>)
    requires a <= b
    ensures |a| <= |b|
    ensures |a| == |b| ==> a == b
    decreases a
  {
    if a != {} {
      var x :| x in a;
      SubsetSize(a - {x}, b - {x});
    }
  }

  /** Two majorities of one member set share a member. */
  lemma QuorumsMeet(members: set<NodeId>, a: set<NodeId>, b: set<NodeId>)
    requires a <= members && b <= members
    requires 2 * |a| > |members| && 2 * |b| > |members|
    ensures exists z :: z in a && z in b
  {
    if a * b == {} {
      assert |a + b| == |a| + |b|;
      SubsetSize(a + b, members);
      assert false;
    }
    var z :| z in a * b;
  }

  class Election {
    const voters: seq<NodeId>
    var votes: map<NodeId, bool>

    ghost function State(): Tally
      reads this
    {
      Tally(voters, votes)
    }

    constructor (ids: seq<NodeId>)
      ensures State() == Tally(ids, map[])
    {
      voters := ids;
      votes := map[];
    }

    method Reset()
      modifies this
      ensures State() == Tally(voters, map[])
    {
      votes := map[];
    }

    method Vote(id: NodeId, granted: bool)
      modifies this
      ensures State() == Voted(old(State()), id, granted)
    {
      votes := votes[id := granted];
    }

    /** Counts the votes in whatever order the map yields them. */
    method Outcome() returns (status: ElectionStatus)
      ensures status == Status(State())
    {
      hide FoldVotes, Status, Enumerates;
      var todo, granted, total := votes.Keys, 0, 0;
      ghost var done: set<NodeId>, order: seq<NodeId> := {}, [];
      NothingFolded(votes, done);
      while todo != {}
        invariant todo !! done && todo + done == votes.Keys
        invariant Enumerates(order, done) && forall x :: x in order ==> x in votes
        invariant (granted, total) == FoldVotes(votes, order)
        decreases todo
      {
        var id :| id in todo;
        if votes[id] {
          granted := granted + 1;
        }
        total := total + 1;
        todo := todo - {id};
        FoldSnoc(votes, order, id);
        EnumerateSnoc(order, done, id);
        done, order := done + {id}, order + [id];
      }
      assert done == votes.Keys;
      StatusOfAnyOrder(State(), order);
      var quorum := if |voters| == 1 then 0 else |voters| / 2 + 1;
      if granted >= quorum {
        status := Elected;
      } else if total - granted == quorum {
        status := Defeated;
      } else {
        status := Voting;
      }
    }
  }
}
