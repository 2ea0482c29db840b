/** The mutable chain object and its garbage collection. */
module ChainStore {
  import opened RaftTypes
  import opened BlockKeys
  import opened Chains

  /** The chain built over the tree found on disk. */
  function Opened(blocks: map<BlockId, Block>, commitKey: Option<BlockId>): ChainState {
    var commit: BlockId := if commitKey.Some? then commitKey.value else 0;
    if commit == 0 then ChainState(blocks[0 := GENESIS], commitKey, 1, 0, 0)
    else ChainState(blocks, commitKey, commit, commit, commit)
  }

  /** The smallest id compaction gets to: it walks down from the commit
      pointer and stops where it meets the key "commit". */
  function SweepFloor(c: ChainState): nat {
    if c.commitKey.Some? && COMMIT_RANK <= c.commit then COMMIT_RANK else 0
  }

  /** `j` is the nearest stored id above `i` and below the commit pointer. */
  ghost predicate Neighbour(c: ChainState, i: BlockId, j: BlockId) {
    && j in c.blocks && i < j < c.commit
    && forall k :: k in c.blocks ==> k <= i || j <= k
  }

  /** The blocks compaction removes. */
  ghost predicate Swept(c: ChainState, i: BlockId) {
    && SweepFloor(c) <= i
    && i in c.blocks
    && exists j :: Neighbour(c, i, j) && c.blocks[j].next != i
  }

  ghost function Compacted(c: ChainState): map<BlockId, Block> {
    map i | i in c.blocks && !Swept(c, i) :: c.blocks[i]
  }

  /** The store once the walk has come down to `floor`. */
  ghost function SweptDownTo(c: ChainState, floor: BlockId): map<BlockId, Block> {
    map i | i in c.blocks && !(floor <= i && Swept(c, i)) :: c.blocks[i]
  }

  /** The entries compaction walks, oldest first. */
  function Walked(c: ChainState): seq<Entry> {
    Scan(c, 0, c.commit)
  }

  /** All entries from index `i` on are blocks. */
  predicate BlocksFrom(es: seq<Entry>, i: nat) {
    forall j :: i <= j < |es| ==> es[j].BlockEntry?
  }

  lemma WalkedFacts(c: ChainState, id: BlockId) returns (m: nat)
    requires KeyedById(c) && id in c.blocks && id < c.commit
    ensures m < |Walked(c)| && Walked(c)[m] == BlockEntry(c.blocks[id])
  {
    ScanEntries(c, 0, c.commit);
    assert BlockEntry(c.blocks[id]) in Walked(c);
    m :| 0 <= m < |Walked(c)| && Walked(c)[m] == BlockEntry(c.blocks[id]);
  }

  lemma WalkPlace(c: ChainState, k: nat, m: nat)
    requires KeyedById(c) && k < |Walked(c)| && m < |Walked(c)|
    ensures Before(Walked(c)[k], Walked(c)[m]) ==> k < m
  {
    ScanOrdered(c, 0, c.commit);
  }

  /** One step of the walk: no stored id lies between two walked blocks, so
      the block visited next is swept exactly when its predecessor in the
      walk does not name it. */
  lemma WalkStep(c: ChainState, i: nat)
    requires KeyedById(c) && 0 < i <= |Walked(c)| && BlocksFrom(Walked(c), i - 1)
    ensures var b := Walked(c)[i - 1].block;
            && b.id in c.blocks && c.blocks[b.id] == b && b.id < c.commit
            && (i < |Walked(c)| ==> b.id < Walked(c)[i].block.id)
            && (Swept(c, b.id) <==> i < |Walked(c)| && Walked(c)[i].block.next != b.id)
            && forall id :: id in c.blocks && b.id < id < c.commit ==> i < |Walked(c)| && Walked(c)[i].block.id <= id
  {
    var es := Walked(c);
    var b := es[i - 1].block;
    ScanOrdered(c, 0, c.commit);
    ScanEntries(c, 0, c.commit);
    assert es[i - 1] in es;
    forall id | id in c.blocks && b.id < id < c.commit
      ensures i < |es| && es[i].block.id <= id
    {
      var m := WalkedFacts(c, id);
      WalkPlace(c, i - 1, m);
      if i < m {
        assert Before(es[i], es[m]);
      }
    }
    if i < |es| {
      assert es[i] in es && Before(es[i - 1], es[i]);
      assert Neighbour(c, b.id, es[i].block.id);
      assert forall j :: Neighbour(c, b.id, j) ==> j == es[i].block.id;
    }
    if SweepFloor(c) == COMMIT_RANK {
      assert CommitEntry in es;
      var m :| 0 <= m < |es| && es[m] == CommitEntry;
      assert Before(es[m], es[i - 1]);
    }
  }

  ghost function Bound(c: ChainState, i: nat): BlockId
    requires BlocksFrom(Walked(c), i)
  {
    if i < |Walked(c)| then Walked(c)[i].block.id else c.commit
  }

  lemma SweepOne(c: ChainState, i: nat)
    requires KeyedById(c) && 0 < i <= |Walked(c)| && BlocksFrom(Walked(c), i - 1)
    ensures var b := Walked(c)[i - 1].block;
            SweptDownTo(c, Bound(c, i - 1)) ==
            SweptDownTo(c, Bound(c, i)) - if i < |Walked(c)| && b.id != Walked(c)[i].block.next then {b.id} else {}
  {
    WalkStep(c, i);
    var b := Walked(c)[i - 1].block;
    forall id | id in c.blocks
      ensures (Bound(c, i - 1) <= id && Swept(c, id)) <==>
              (Bound(c, i) <= id && Swept(c, id)) || (id == b.id && Swept(c, b.id))
    {
      if Swept(c, id) {
        assert id < c.commit;
      }
    }
  }

  /** Where the walk stops: at the oldest block, or just above the key "commit". */
  lemma WalkEnd(c: ChainState, i: nat)
    requires KeyedById(c) && i <= |Walked(c)| && BlocksFrom(Walked(c), i)
    requires i == 0 || Walked(c)[i - 1].CommitEntry?
    ensures SweepFloor(c) == 0 <==> i == 0
    ensures forall id :: Swept(c, id) ==> i < |Walked(c)| && Walked(c)[i].block.id <= id
  {
    var es := Walked(c);
    ScanOrdered(c, 0, c.commit);
    ScanEntries(c, 0, c.commit);
    assert i > 0 ==> es[i - 1] in es;
    if SweepFloor(c) == COMMIT_RANK {
      assert CommitEntry in es;
    }
    forall id | Swept(c, id)
      ensures i < |es| && es[i].block.id <= id
    {
      var m := WalkedFacts(c, id);
      if i > 0 {
        WalkPlace(c, i - 1, m);
      }
      if i < m {
        assert Before(es[i], es[m]);
      }
    }
  }

  // ---- What compaction leaves of the committed path ----

  /** `a` is reached by following parents from `from`. */
  ghost predicate OnPath(blocks: map<BlockId, Block>, a: BlockId, from: BlockId)
    decreases from
  {
    && from in blocks
    && (a == from || (blocks[from].next < from && OnPath(blocks, a, blocks[from].next)))
  }

  /** Every ancestor of the commit pointer that has a neighbour is named by it. */
  ghost predicate AncestorsNamed(c: ChainState) {
    forall a, j :: OnPath(c.blocks, a, c.commit) && SweepFloor(c) <= a && Neighbour(c, a, j) ==> c.blocks[j].next == a
  }

  lemma {:induction false} OnPathStored(blocks: map<BlockId, Block>, a: BlockId, from: BlockId)
    requires OnPath(blocks, a, from)
    ensures a in blocks && a <= from
    decreases from
  {
    if a != from {
      OnPathStored(blocks, a, blocks[from].next);
    }
  }

  lemma {:induction false} PathKept(c: ChainState, from: BlockId, a: BlockId)
    requires forall b :: OnPath(c.blocks, b, from) ==> !Swept(c, b)
    ensures OnPath(Compacted(c), a, from) <==> OnPath(c.blocks, a, from)
    decreases from
  {
    if from in c.blocks && a != from && c.blocks[from].next < from {
      assert OnPath(c.blocks, from, from);
      PathKept(c, c.blocks[from].next, a);
    }
  }

  /** The path from the commit pointer to genesis survives compaction exactly
      when every ancestor is named by the nearest block above it. */
  lemma CompactKeepsPath(c: ChainState)
    ensures (forall a :: OnPath(Compacted(c), a, c.commit) <==> OnPath(c.blocks, a, c.commit)) <==> AncestorsNamed(c)
  {
    forall a | OnPath(c.blocks, a, c.commit)
      ensures a in c.blocks
      ensures OnPath(Compacted(c), a, c.commit) ==> !Swept(c, a)
    {
      OnPathStored(c.blocks, a, c.commit);
      if OnPath(Compacted(c), a, c.commit) {
        OnPathStored(Compacted(c), a, c.commit);
      }
    }
    if AncestorsNamed(c) {
      forall a
        ensures OnPath(Compacted(c), a, c.commit) <==> OnPath(c.blocks, a, c.commit)
      {
        PathKept(c, c.commit, a);
      }
    } else {
      var a, j :| OnPath(c.blocks, a, c.commit) && SweepFloor(c) <= a && Neighbour(c, a, j) && c.blocks[j].next != a;
      assert Swept(c, a);
      assert !OnPath(Compacted(c), a, c.commit);
    }
  }

  /** A store in which a live block has a dead sibling with a larger id, as the
      chain's own operations build it: going back to genesis for block 2, and
      back to block 1 for block 3. */
  function ForkedStore(): ChainState {
    var one := Chains.Append(FreshChain(), []).chain;
    var two := Chains.Append(Chains.Extend(one, GENESIS).chain, []).chain;
    var three := Chains.Append(Chains.Extend(two, Block(1, 0, [])).chain, []).chain;
    Chains.Commit(Chains.Append(three, []).chain, 4).chain
  }

  lemma ForkedStoreBlocks()
    ensures ForkedStore() ==
            ChainState(map[0 := GENESIS, 1 := Block(1, 0, []), 2 := Block(2, 0, []), 3 := Block(3, 1, []), 4 := Block(4, 3, [])],
                       Some(4), 5, 4, 4)
  {
  }

  /** Compaction can remove an ancestor of the commit pointer. */
  lemma CompactDropsAncestor()
    ensures OnPath(ForkedStore().blocks, 1, ForkedStore().commit)
    ensures 1 !in Compacted(ForkedStore())
  {
    ForkedStoreBlocks();
    hide ForkedStore;
    var c := ForkedStore();
    assert OnPath(c.blocks, 1, 3);
    assert Neighbour(c, 1, 2) && c.blocks[2].next != 1;
  }

  /** What compaction keeps, said on the ids: with the commit pointer below the
      key, a block goes exactly when the next stored id above it lies below the
      commit pointer and has another parent. */
  lemma CompactExactly(c: ChainState, i: BlockId)
    requires c.commit < COMMIT_RANK
    ensures i in Compacted(c) ==> i in c.blocks && Compacted(c)[i] == c.blocks[i]
    ensures i in c.blocks && i !in Compacted(c) <==>
            i in c.blocks && exists j :: j in c.blocks && i < j < c.commit && c.blocks[j].next != i
                                         && forall k :: k in c.blocks && i < k ==> j <= k
  {
    assert forall j: BlockId :: Neighbour(c, i, j) <==> j in c.blocks && i < j < c.commit && forall k :: k in c.blocks && i < k ==> j <= k;
  }

  /** A gapless chain loses nothing to compaction. */
  lemma CompactKeepsGapless(c: ChainState, top: BlockId)
    requires Dense(c, top)
    requires forall i :: i in c.blocks && i > 0 ==> c.blocks[i].next == i - 1
    ensures Compacted(c) == c.blocks
  {
    forall i, j | i in c.blocks && Neighbour(c, i, j)
      ensures c.blocks[j].next == i
    {
      assert i + 1 in c.blocks;
    }
  }

  class Chain {
    var blocks: map<BlockId, Block>
    var commitKey: Option<BlockId>
    var idGen: u64
    var commit: BlockId
    var head: BlockId

    ghost function State(): ChainState
      reads this
    {
      ChainState(blocks, commitKey, idGen, commit, head)
    }

    constructor Open(tree: map<BlockId, Block>, key: Option<BlockId>)
      ensures State() == Opened(tree, key)
      ensures tree == map[] && key.None? ==> State() == FreshChain()
      ensures key.Some? && key.value > 0 ==>
                blocks == tree && commitKey == key && head == commit == idGen == key.value
      ensures key.None? || key.value == 0 ==>
                blocks == tree[0 := GENESIS] && commitKey == key && head == commit == 0 && idGen == 1
    {
      blocks := tree;
      commitKey := key;
      var pointer: BlockId := if key.Some? then key.value else 0;
      idGen := pointer;
      commit := pointer;
      head := pointer;
      new;
      if pointer == 0 {
        var id := idGen;
        idGen := (idGen + 1) % U64;
        blocks := blocks[id := Block(id, id, [])];
      }
    }

    method Has(id: BlockId) returns (found: bool)
      ensures found <==> id in blocks
    {
      found := id in blocks;
    }

    method Append(data: Bytes) returns (ok: bool)
      modifies this`blocks, this`idGen, this`head
      ensures ChainResult(State(), ok) == Chains.Append(old(State()), data)
      ensures ok <==> old(head) < old(idGen)
      ensures ok ==> head == old(idGen) && head in blocks && blocks[head].data == data && blocks[head].next == old(head)
    {
      var id := idGen;
      idGen := (idGen + 1) % U64;
      ok := id > head;
      if ok {
        blocks := blocks[id := Block(id, head, data)];
        head := id;
      }
    }

    method Extend(b: Block) returns (ok: bool)
      modifies this`blocks, this`head
      ensures ChainResult(State(), ok) == Chains.Extend(old(State()), b)
      ensures ok <==> b.next in old(blocks)
    {
      ok := b.next in blocks;
      if ok {
        blocks := blocks[b.id := b];
        head := b.id;
      }
    }

    method Commit(id: BlockId) returns (ok: bool)
      modifies this`commitKey, this`commit
      ensures ChainResult(State(), ok) == Chains.Commit(old(State()), id)
      ensures ok <==> id in blocks
    {
      ok := id in blocks;
      if ok {
        commitKey := Some(id);
        commit := id;
      }
    }

    /** Walks the blocks below the commit pointer from the newest down and
        removes each one its successor in the walk does not name. */
    method Compact() returns (ok: bool)
      requires KeyedById(State())
      modifies this`blocks
      ensures blocks == Compacted(old(State()))
      ensures ok <==> SweepFloor(State()) == 0
    {
      ghost var was := State();
      var entries := Walked(ChainState(blocks, commitKey, idGen, commit, head));
      var nextId: Option<BlockId> := None;
      var i := |entries|;
      ok := true;
      while i > 0
        invariant 0 <= i <= |entries| && entries == Walked(was) && ok
        invariant commitKey == was.commitKey && commit == was.commit
        invariant BlocksFrom(entries, i)
        invariant nextId == if i < |entries| then Some(entries[i].block.next) else None
        invariant blocks == SweptDownTo(was, Bound(was, i))
      {
        if entries[i - 1].CommitEntry? {
          ok := false;
          WalkEnd(was, i);
          return;
        }
        SweepOne(was, i);
        var b := entries[i - 1].block;
        if nextId.Some? && b.id != nextId.value {
          blocks := blocks - {b.id};
        }
        nextId := Some(b.next);
        i := i - 1;
      }
      WalkEnd(was, 0);
    }
  }
}
