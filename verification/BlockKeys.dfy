/** Block ids as the store sees them: eight big-endian bytes, compared
    lexicographically, in one tree with the textual key "commit". */
module BlockKeys {
  import opened RaftTypes

  /** The six bytes of the text "commit". */
  const COMMIT_KEY: Bytes := [0x63, 0x6f, 0x6d, 0x6d, 0x69, 0x74]

  /** The smallest block id whose key sorts after "commit". */
  const COMMIT_RANK: nat := 0x636f_6d6d_6974_0000

  function Pow256(width: nat): nat {
    if width == 0 then 1 else 256 * Pow256(width - 1)
  }

  function BigEndian(n: nat, width: nat): (key: Bytes)
    ensures |key| == width
  {
    if width == 0 then [] else BigEndian(n / 256, width - 1) + [(n % 256) as byte]
  }

  function FromBigEndian(key: Bytes): nat {
    if key == [] then 0 else 256 * FromBigEndian(key[..|key| - 1]) + key[|key| - 1] as nat
  }

  /** Lexicographic order on byte strings; a proper prefix is smaller. */
  predicate LexLess(a: Bytes, b: Bytes) {
    b != [] && (a == [] || a[0] < b[0] || (a[0] == b[0] && LexLess(a[1..], b[1..])))
  }

  function BlockKey(id: BlockId): Bytes {
    BigEndian(id, 8)
  }

  lemma {:induction false} BigEndianRoundTrip(n: nat, width: nat)
    requires n < Pow256(width)
    ensures FromBigEndian(BigEndian(n, width)) == n
  {
    if width > 0 {
      BigEndianRoundTrip(n / 256, width - 1);
      var key := BigEndian(n, width);
      assert key[..width - 1] == BigEndian(n / 256, width - 1);
    }
  }

  lemma {:induction false} LexLessSnoc(a: Bytes, b: Bytes, x: byte, y: byte)
    requires |a| == |b|
    ensures LexLess(a + [x], b + [y]) <==> LexLess(a, b) || (a == b && x < y)
  {
    if a != [] {
      LexLessSnoc(a[1..], b[1..], x, y);
      assert (a + [x])[1..] == a[1..] + [x] && (b + [y])[1..] == b[1..] + [y];
      assert a == [a[0]] + a[1..] && b == [b[0]] + b[1..];
    }
  }

  /** Lexicographic order on big-endian keys of one width is numeric order. */
  lemma {:induction false} BigEndianOrder(n: nat, m: nat, width: nat)
    requires n < Pow256(width) && m < Pow256(width)
    ensures LexLess(BigEndian(n, width), BigEndian(m, width)) <==> n < m
    ensures BigEndian(n, width) == BigEndian(m, width) <==> n == m
  {
    BigEndianRoundTrip(n, width);
    BigEndianRoundTrip(m, width);
    if width > 0 {
      BigEndianOrder(n / 256, m / 256, width - 1);
      LexLessSnoc(BigEndian(n / 256, width - 1), BigEndian(m / 256, width - 1), (n % 256) as byte, (m % 256) as byte);
    }
  }

  lemma WidthOfKey()
    ensures Pow256(8) == U64 && Pow256(6) == 0x1_0000_0000_0000
  {
    assert Pow256(2) == 0x1_0000;
    assert Pow256(4) == 0x1_0000_0000;
    assert Pow256(6) == 0x1_0000_0000_0000;
  }

  /** Block keys compare as the ids do, for every pair of 64-bit ids. */
  lemma BlockKeyOrder(a: BlockId, b: BlockId)
    ensures LexLess(BlockKey(a), BlockKey(b)) <==> a < b
    ensures BlockKey(a) == BlockKey(b) <==> a == b
  {
    WidthOfKey();
    BigEndianOrder(a, b, 8);
  }

  lemma {:induction false} LexLessPrefix(a: Bytes, b: Bytes, tail: Bytes)
    requires |a| == |b|
    ensures LexLess(a + tail, b) <==> LexLess(a, b)
    ensures LexLess(b, a + tail) <==> LexLess(b, a) || (a == b && tail != [])
  {
    if a == [] {
      assert a + tail == tail;
    } else {
      LexLessPrefix(a[1..], b[1..], tail);
      assert (a + tail)[1..] == a[1..] + tail;
      assert a == [a[0]] + a[1..] && b == [b[0]] + b[1..];
    }
  }

  lemma CommitKeyIsBigEndian()
    ensures BigEndian(0x636f_6d6d_6974, 6) == COMMIT_KEY
  {
    assert BigEndian(0x636f, 2) == [0x63, 0x6f];
    assert BigEndian(0x636f_6d6d, 4) == [0x63, 0x6f, 0x6d, 0x6d];
  }

  /** Where the commit pointer sits among the blocks: below exactly the ids
      from COMMIT_RANK on. */
  lemma CommitKeyOrder(id: BlockId)
    ensures LexLess(BlockKey(id), COMMIT_KEY) <==> id < COMMIT_RANK
    ensures LexLess(COMMIT_KEY, BlockKey(id)) <==> COMMIT_RANK <= id
    ensures BlockKey(id) != COMMIT_KEY
  {
    WidthOfKey();
    CommitKeyIsBigEndian();
    var top := id / 256 / 256;
    var tail := [(id / 256 % 256) as byte, (id % 256) as byte];
    assert BlockKey(id) == BigEndian(top, 6) + tail by {
      assert BigEndian(id / 256, 7) == BigEndian(top, 6) + [(id / 256 % 256) as byte];
    }
    BigEndianOrder(top, 0x636f_6d6d_6974, 6);
    BigEndianOrder(0x636f_6d6d_6974, top, 6);
    LexLessPrefix(BigEndian(top, 6), COMMIT_KEY, tail);
  }
}
