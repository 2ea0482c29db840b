/** The block store of one node. */
module Chains {
  import opened RaftTypes
  import opened BlockKeys

  /** The store tree split into its block keys and the key "commit", with the
      three in-memory fields kept beside it. */
  datatype ChainState = ChainState(
    blocks: map<BlockId, Block>,
    commitKey: Option<BlockId>,
    idGen: u64,
    commit: BlockId,
    head: BlockId)

  /** One item of a range scan. Decoding the value under "commit" as a block
      fails, so an iterator that consumes a CommitEntry panics. */
  datatype Entry = BlockEntry(block: Block) | CommitEntry

  /** What an operation of the chain tells its caller; `None` is a panic or an error. */
  datatype ChainResult = ChainResult(chain: ChainState, ok: bool)

  function FreshChain(): ChainState {
    ChainState(map[0 := GENESIS], None, 1, 0, 0)
  }

  function Append(c: ChainState, data: Bytes): ChainResult {
    var id := c.idGen;
    var ticked := c.(idGen := (id + 1) % U64);
    if id > c.head then
      ChainResult(ticked.(blocks := c.blocks[id := Block(id, c.head, data)], head := id), true)
    else
      ChainResult(ticked, false)
  }

  function Extend(c: ChainState, b: Block): ChainResult {
    if b.next in c.blocks then
      ChainResult(c.(blocks := c.blocks[b.id := b], head := b.id), true)
    else
      ChainResult(c, false)
  }

  function ExtendAll(c: ChainState, bs: seq<Block>): ChainResult
    decreases bs
  {
    if bs == [] then ChainResult(c, true)
    else
      var first := Extend(c, bs[0]);
      if first.ok then ExtendAll(first.chain, bs[1..]) else first
  }

  function Commit(c: ChainState, id: BlockId): ChainResult {
    if id in c.blocks then
      ChainResult(c.(commitKey := Some(id), commit := id), true)
    else
      ChainResult(c, false)
  }

  /** The entries with keys in [lo, hi), in key order. */
  function Scan(c: ChainState, lo: nat, hi: nat): seq<Entry>
    requires hi <= U64
    decreases hi - lo
  {
    if lo >= hi then []
    else
      (if lo in c.blocks then [BlockEntry(c.blocks[lo])] else [])
      + (if c.commitKey.Some? && lo + 1 == COMMIT_RANK then [CommitEntry] else [])
      + Scan(c, lo + 1, hi)
  }

  /** The entries with keys in [lo, hi], in key order. */
  function ScanThrough(c: ChainState, lo: BlockId, hi: BlockId): seq<Entry> {
    Scan(c, lo, hi) + if lo <= hi && hi in c.blocks then [BlockEntry(c.blocks[hi])] else []
  }

  /** The blocks an iterator yields before it meets the commit key, and
      whether it gets to the end. */
  datatype Yield = Yield(blocks: seq<Block>, ok: bool)

  function Drain(es: seq<Entry>): (y: Yield)
    ensures |y.blocks| <= |es|
    ensures y.ok ==> |y.blocks| == |es|
  {
    if es == [] then Yield([], true)
    else if es[0].CommitEntry? then Yield([], false)
    else
      var rest := Drain(es[1..]);
      Yield([es[0].block] + rest.blocks, rest.ok)
  }

  // ---- What a scan returns, in terms of the byte keys of the tree ----

  ghost predicate KeyedById(c: ChainState) {
    forall i :: i in c.blocks ==> c.blocks[i].id == i
  }

  function KeyOf(e: Entry): Bytes {
    if e.CommitEntry? then COMMIT_KEY else BlockKey(e.block.id)
  }

  /** All keys of the tree. */
  ghost predicate IsKey(c: ChainState, key: Bytes) {
    (exists i :: i in c.blocks && key == BlockKey(i)) || (c.commitKey.Some? && key == COMMIT_KEY)
  }

  ghost predicate Holds(c: ChainState, e: Entry) {
    if e.CommitEntry? then c.commitKey.Some? else e.block.id in c.blocks && c.blocks[e.block.id] == e.block
  }

  /** `e` lies in the byte interval from `lo` on. */
  ghost predicate AtLeast(e: Entry, lo: nat) {
    if e.CommitEntry? then lo < COMMIT_RANK else lo <= e.block.id
  }

  lemma {:induction false} ScanEntries(c: ChainState, lo: nat, hi: nat)
    requires hi <= U64 && KeyedById(c)
    ensures forall e :: e in Scan(c, lo, hi) <==>
                        Holds(c, e) && AtLeast(e, lo) && (if e.CommitEntry? then COMMIT_RANK <= hi else e.block.id < hi)
    decreases hi - lo
  {
    if lo < hi {
      ScanEntries(c, lo + 1, hi);
      forall e
        ensures e in Scan(c, lo, hi) <==>
                Holds(c, e) && AtLeast(e, lo) && (if e.CommitEntry? then COMMIT_RANK <= hi else e.block.id < hi)
      {
        assert e in Scan(c, lo, hi) <==>
               (lo in c.blocks && e == BlockEntry(c.blocks[lo]))
               || (c.commitKey.Some? && lo + 1 == COMMIT_RANK && e == CommitEntry)
               || e in Scan(c, lo + 1, hi);
      }
    }
  }

  /** Where a range ends. */
  datatype Upper = Below(id: BlockId) | UpTo(id: BlockId) | NoEnd

  /** The entries of the range that starts with `lo`. */
  function Range(c: ChainState, lo: BlockId, end: Upper): seq<Entry> {
    match end
    case Below(hi) => Scan(c, lo, hi)
    case UpTo(hi) => ScanThrough(c, lo, hi)
    case NoEnd => Scan(c, lo, U64)
  }

  ghost predicate Within(key: Bytes, end: Upper) {
    match end
    case Below(hi) => LexLess(key, BlockKey(hi))
    case UpTo(hi) => !LexLess(BlockKey(hi), key)
    case NoEnd => true
  }

  /** `Within`, told on ids. */
  ghost predicate EntryWithin(e: Entry, end: Upper) {
    match end
    case Below(hi) => if e.CommitEntry? then COMMIT_RANK <= hi else e.block.id < hi
    case UpTo(hi) => if e.CommitEntry? then COMMIT_RANK <= hi else e.block.id <= hi
    case NoEnd => true
  }

  lemma RangeEntries(c: ChainState, lo: BlockId, end: Upper)
    requires KeyedById(c)
    ensures forall e :: e in Range(c, lo, end) <==> Holds(c, e) && AtLeast(e, lo) && EntryWithin(e, end)
  {
    ScanEntries(c, lo, if end.NoEnd? then U64 else end.id);
  }

  /** The byte order of an entry's key against the bounds. */
  lemma KeyBounds(e: Entry, lo: BlockId, end: Upper)
    ensures LexLess(KeyOf(e), BlockKey(lo)) <==> !AtLeast(e, lo)
    ensures Within(KeyOf(e), end) <==> EntryWithin(e, end)
  {
    var hi := if end.NoEnd? then lo else end.id;
    match e {
      case CommitEntry =>
        CommitKeyOrder(lo);
        CommitKeyOrder(hi);
      case BlockEntry(b) =>
        BlockKeyOrder(b.id, lo);
        BlockKeyOrder(b.id, hi);
        BlockKeyOrder(hi, b.id);
    }
  }

  ghost predicate HasKey(es: seq<Entry>, key: Bytes) {
    exists e :: e in es && KeyOf(e) == key
  }

  /** A range, half-open, inclusive or open-ended, returns exactly the entries
      whose byte keys lie in the byte interval, each carrying the value stored
      under its key. */
  lemma ScanIsKeyInterval(c: ChainState, lo: BlockId, end: Upper, key: Bytes)
    requires KeyedById(c)
    ensures HasKey(Range(c, lo, end), key) <==> IsKey(c, key) && !LexLess(key, BlockKey(lo)) && Within(key, end)
    ensures forall e :: e in Range(c, lo, end) ==> Holds(c, e)
  {
    RangeEntries(c, lo, end);
    hide LexLess, Within, EntryWithin, AtLeast, Range, BlockKey;
    if IsKey(c, key) {
      var e := EntryUnder(c, key);
      KeyBounds(e, lo, end);
    }
    if HasKey(Range(c, lo, end), key) {
      var e :| e in Range(c, lo, end) && KeyOf(e) == key;
      KeyBounds(e, lo, end);
      HeldKey(c, e);
    }
  }

  lemma EntryUnder(c: ChainState, key: Bytes) returns (e: Entry)
    requires KeyedById(c) && IsKey(c, key)
    ensures Holds(c, e) && KeyOf(e) == key
  {
    if i :| i in c.blocks && key == BlockKey(i) {
      e := BlockEntry(c.blocks[i]);
    } else {
      e := CommitEntry;
    }
  }

  lemma HeldKey(c: ChainState, e: Entry)
    requires Holds(c, e)
    ensures IsKey(c, KeyOf(e))
  {
  }

  /** The order of the tree, told on ids. */
  ghost predicate Before(a: Entry, b: Entry) {
    match (a, b)
    case (BlockEntry(x), BlockEntry(y)) => x.id < y.id
    case (BlockEntry(x), CommitEntry) => x.id < COMMIT_RANK
    case (CommitEntry, BlockEntry(y)) => COMMIT_RANK <= y.id
    case (CommitEntry, CommitEntry) => false
  }

  lemma {:induction false} ScanOrdered(c: ChainState, lo: nat, hi: nat)
    requires hi <= U64 && KeyedById(c)
    ensures forall i, j :: 0 <= i < j < |Scan(c, lo, hi)| ==> Before(Scan(c, lo, hi)[i], Scan(c, lo, hi)[j])
    decreases hi - lo
  {
    if lo < hi {
      ScanOrdered(c, lo + 1, hi);
      ScanEntries(c, lo + 1, hi);
      var rest := Scan(c, lo + 1, hi);
      forall i | 0 <= i < |rest| ensures AtLeast(rest[i], lo + 1) {
        assert rest[i] in rest;
      }
      assert Scan(c, lo, hi) == ScanFirst(c, lo) + rest;
      hide Scan, Holds;
    }
  }

  lemma RangeOrdered(c: ChainState, lo: BlockId, end: Upper, i: nat, j: nat)
    requires KeyedById(c) && i < j < |Range(c, lo, end)|
    ensures Before(Range(c, lo, end)[i], Range(c, lo, end)[j])
  {
    var hi := if end.NoEnd? then U64 else end.id;
    var es := Scan(c, lo, hi);
    ScanOrdered(c, lo, hi);
    ScanEntries(c, lo, hi);
    if j == |es| {
      assert es[i] in es;
    }
  }

  /** A range returns its entries in strictly ascending byte-key order. */
  lemma ScanAscends(c: ChainState, lo: BlockId, end: Upper, i: nat, j: nat)
    requires KeyedById(c) && i < j < |Range(c, lo, end)|
    ensures LexLess(KeyOf(Range(c, lo, end)[i]), KeyOf(Range(c, lo, end)[j]))
  {
    RangeOrdered(c, lo, end, i, j);
    match (Range(c, lo, end)[i], Range(c, lo, end)[j]) {
      case (BlockEntry(x), BlockEntry(y)) => BlockKeyOrder(x.id, y.id);
      case (BlockEntry(x), CommitEntry) => CommitKeyOrder(x.id);
      case (CommitEntry, BlockEntry(y)) => CommitKeyOrder(y.id);
    }
  }

  // ---- Scans of a store without gaps ----

  ghost predicate Dense(c: ChainState, top: BlockId) {
    forall i: BlockId :: i in c.blocks <==> i <= top
  }

  ghost predicate Stored(blocks: map<BlockId, Block>, b: Block) {
    b.id in blocks && blocks[b.id] == b
  }

  /** `bs` are the stored blocks lo, lo + 1, ... */
  ghost predicate RunOf(blocks: map<BlockId, Block>, bs: seq<Block>, lo: nat) {
    forall j :: 0 <= j < |bs| ==> bs[j].id == lo + j && Stored(blocks, bs[j])
  }

  lemma RunAppend(blocks: map<BlockId, Block>, a: seq<Block>, b: seq<Block>, lo: nat)
    requires RunOf(blocks, a, lo) && RunOf(blocks, b, lo + |a|)
    ensures RunOf(blocks, a + b, lo)
  {
  }

  /** However far an iterator over a gapless store gets, the blocks it yields
      are consecutive. */
  lemma {:induction false} DrainDense(c: ChainState, top: BlockId, lo: nat, hi: nat, k: nat)
    requires hi <= U64 && KeyedById(c) && Dense(c, top) && k <= |Scan(c, lo, hi)|
    ensures RunOf(c.blocks, Drain(Scan(c, lo, hi)[..k]).blocks, lo)
    decreases hi - lo
  {
    if lo < hi && k > 0 && lo <= top {
      var es := Scan(c, lo, hi)[..k];
      if c.commitKey.Some? && lo + 1 == COMMIT_RANK {
        assert k > 1 ==> es[1] == CommitEntry;
        assert k > 1 ==> es[1..][0] == CommitEntry;
      } else {
        var rest := Scan(c, lo + 1, hi);
        assert Scan(c, lo, hi) == [BlockEntry(c.blocks[lo])] + rest;
        DrainDense(c, top, lo + 1, hi, k - 1);
        assert es[1..] == rest[..k - 1];
        RunAppend(c.blocks, [c.blocks[lo]], Drain(es[1..]).blocks, lo);
      }
    } else if lo < hi && lo > top {
      ScanBeyond(c, top, lo, hi, k);
    }
  }

  lemma {:induction false} ScanBeyond(c: ChainState, top: BlockId, lo: nat, hi: nat, k: nat)
    requires hi <= U64 && Dense(c, top) && lo > top && k <= |Scan(c, lo, hi)|
    ensures forall e :: e in Scan(c, lo, hi) ==> e == CommitEntry
    ensures Drain(Scan(c, lo, hi)[..k]).blocks == []
    decreases hi - lo
  {
    if lo < hi {
      ScanBeyond(c, top, lo + 1, hi, 0);
      assert forall e :: e in Scan(c, lo, hi) ==> e == CommitEntry;
      assert k > 0 ==> Scan(c, lo, hi)[..k][0] in Scan(c, lo, hi);
    }
  }

  ghost predicate Present(c: ChainState, lo: nat, hi: nat) {
    forall i: BlockId :: lo <= i < hi ==> i in c.blocks
  }

  /** A bounded scan over ids that are all stored yields a run of them, and
      all of them if it is not cut short. */
  lemma {:induction false} DrainWhole(c: ChainState, lo: nat, hi: BlockId)
    requires KeyedById(c) && Present(c, lo, hi) && lo <= hi
    ensures var y := Drain(Scan(c, lo, hi));
            && |y.blocks| <= hi - lo
            && (y.ok ==> |y.blocks| == hi - lo)
            && RunOf(c.blocks, y.blocks, lo)
    decreases hi - lo
  {
    if lo < hi {
      DrainWhole(c, lo + 1, hi);
      var es := Scan(c, lo, hi);
      if c.commitKey.Some? && lo + 1 == COMMIT_RANK {
        assert es[1..][0] == CommitEntry;
      } else {
        assert es[1..] == Scan(c, lo + 1, hi);
        RunAppend(c.blocks, [c.blocks[lo]], Drain(es[1..]).blocks, lo);
      }
    }
  }

  lemma {:induction false} DrainSnoc(es: seq<Entry>, b: Block)
    ensures Drain(es + [BlockEntry(b)]) ==
            if Drain(es).ok then Yield(Drain(es).blocks + [b], true) else Drain(es)
  {
    if es != [] {
      DrainSnoc(es[1..], b);
      assert (es + [BlockEntry(b)])[1..] == es[1..] + [BlockEntry(b)];
      if es[0].BlockEntry? && Drain(es).ok {
        assert [es[0].block] + (Drain(es[1..]).blocks + [b]) == Drain(es).blocks + [b];
      }
    }
  }

  /** The inclusive form of DrainWhole. */
  lemma DrainThrough(c: ChainState, lo: BlockId, hi: BlockId)
    requires KeyedById(c) && Present(c, lo, hi) && hi in c.blocks && lo <= hi
    ensures var y := Drain(ScanThrough(c, lo, hi));
            && |y.blocks| <= hi - lo + 1
            && (y.ok ==> |y.blocks| == hi - lo + 1)
            && RunOf(c.blocks, y.blocks, lo)
  {
    DrainWhole(c, lo, hi);
    DrainSnoc(Scan(c, lo, hi), c.blocks[hi]);
  }

  function Min(a: int, b: int): int { if a < b then a else b }

  /** What a scan starts with. */
  function ScanFirst(c: ChainState, lo: nat): seq<Entry> {
    (if lo in c.blocks then [BlockEntry(c.blocks[lo])] else [])
    + if c.commitKey.Some? && lo + 1 == COMMIT_RANK then [CommitEntry] else []
  }

  lemma ScanUnfold(c: ChainState, lo: nat, hi: nat)
    requires lo < hi <= U64
    ensures Scan(c, lo, hi) == ScanFirst(c, lo) + Scan(c, lo + 1, hi)
  {
  }

  /** Where an open-ended scan of a gapless store meets the commit key. */
  lemma {:induction false} CommitEntryPlace(c: ChainState, top: BlockId, lo: nat, j: nat)
    requires Dense(c, top) && lo <= top + 1 <= U64
    requires j < |Scan(c, lo, U64)|
    ensures Scan(c, lo, U64)[j].CommitEntry? <==>
            c.commitKey.Some? && lo < COMMIT_RANK && j == Min(top + 1, COMMIT_RANK) - lo
    decreases U64 - lo
  {
    hide Scan;
    if lo == top + 1 {
      CommitEntryOnly(c, top, lo);
    } else {
      ScanUnfold(c, lo, U64);
      var first := ScanFirst(c, lo);
      if j >= |first| {
        assert Scan(c, lo, U64)[j] == Scan(c, lo + 1, U64)[j - |first|];
        CommitEntryPlace(c, top, lo + 1, j - |first|);
      }
    }
  }

  lemma {:induction false} CommitEntryOnly(c: ChainState, top: BlockId, lo: nat)
    requires Dense(c, top) && top < lo <= U64
    ensures Scan(c, lo, U64) == if c.commitKey.Some? && lo < COMMIT_RANK then [CommitEntry] else []
    decreases U64 - lo
  {
    if lo < U64 {
      CommitEntryOnly(c, top, lo + 1);
    }
  }

  /** How long an open-ended scan of a gapless store is. */
  lemma {:induction false} ScanLength(c: ChainState, top: BlockId, lo: nat)
    requires Dense(c, top) && lo <= top + 1
    ensures |Scan(c, lo, U64)| == top + 1 - lo + if c.commitKey.Some? && lo < COMMIT_RANK then 1 else 0
    decreases U64 - lo
  {
    if lo <= top {
      ScanLength(c, top, lo + 1);
    } else {
      CommitEntryOnly(c, top, lo);
    }
  }

  lemma {:induction false} DrainOk(es: seq<Entry>)
    ensures Drain(es).ok <==> CommitEntry !in es
  {
    if es != [] {
      DrainOk(es[1..]);
      assert es == [es[0]] + es[1..];
    }
  }
}
