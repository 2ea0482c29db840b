/** A log segment: a file of records and a memory-mapped index of entries. */
module SegmentLog {
  import opened RaftTypes
  import opened BlockKeys

  const MAX_BYTES_INDEX: nat := 10 * 1024 * 1024

  datatype Entry = Entry(offset: u64, position: u64)

  // ---- Entries as bytes ----

  function Encode(e: Entry): (bytes: Bytes)
    ensures |bytes| == 16
  {
    BigEndian(e.offset, 8) + BigEndian(e.position, 8)
  }

  lemma {:induction false} FromBigEndianBound(key: Bytes)
    ensures FromBigEndian(key) < Pow256(|key|)
  {
    if key != [] {
      FromBigEndianBound(key[..|key| - 1]);
    }
  }

  /** `None` where the length assertion fails. */
  function Decode(bytes: Bytes): Option<Entry> {
    if |bytes| != 16 then None
    else
      WidthOfKey();
      FromBigEndianBound(bytes[..8]);
      FromBigEndianBound(bytes[8..]);
      Some(Entry(FromBigEndian(bytes[..8]), FromBigEndian(bytes[8..])))
  }

  lemma EntryRoundTrip(e: Entry)
    ensures Decode(Encode(e)) == Some(e)
  {
    WidthOfKey();
    assert Encode(e)[..8] == BigEndian(e.offset, 8) && Encode(e)[8..] == BigEndian(e.position, 8);
    BigEndianRoundTrip(e.offset, 8);
    BigEndianRoundTrip(e.position, 8);
  }

  // ---- The index ----

  /** The map after as many of `bytes` as fit are copied to `offset`. */
  function Written(mem: Bytes, bytes: Bytes, offset: nat): (mem': Bytes)
    ensures |mem'| == |mem|
  {
    if offset > |mem| then mem
    else
      var k := if |bytes| <= |mem| - offset then |bytes| else |mem| - offset;
      mem[..offset] + bytes[..k] + mem[offset + k..]
  }

  /** Byte by byte: the bytes from `offset` on as far as there is room, and the map as it was elsewhere. */
  lemma WrittenBytes(mem: Bytes, bytes: Bytes, offset: nat, k: nat)
    requires k < |mem|
    ensures Written(mem, bytes, offset)[k] == if offset <= k < offset + |bytes| then bytes[k - offset] else mem[k]
  {
  }

  predicate Fits(mem: Bytes, bytes: Bytes, offset: nat) {
    offset + |bytes| <= |mem|
  }

  datatype IndexResult = IndexResult(mem: Bytes, ok: bool)

  /** The entry with its offset relative to the base, which wraps for an entry below it. */
  function Relative(e: Entry, base: u64): Entry {
    Entry((e.offset - base) % U64, e.position)
  }

  function PutEntry(mem: Bytes, base: u64, e: Entry): IndexResult {
    var local := Relative(e, base);
    IndexResult(Written(mem, Encode(local), local.offset), Fits(mem, Encode(local), local.offset))
  }

  /** `None` where slicing the map fails. */
  function ReadEntry(mem: Bytes, base: u64, at: nat): Option<Entry> {
    if at + 16 > |mem| then None
    else
      var e := Decode(mem[at..at + 16]);
      if e.None? then None else Some(Entry((e.value.offset + base) % U64, e.value.position))
  }

  /** A file cut or filled up with zeros to the size of the map. */
  function Resized(content: Bytes): (mem: Bytes)
    ensures |mem| == MAX_BYTES_INDEX
  {
    if |content| >= MAX_BYTES_INDEX then content[..MAX_BYTES_INDEX] else content + Zeros(MAX_BYTES_INDEX - |content|)
  }

  function Zeros(n: nat): Bytes {
    seq(n, _ => 0)
  }

  /** Reading at the relative offset gives the entry back, whatever the base. */
  lemma IndexRoundTrip(mem: Bytes, base: u64, e: Entry)
    requires base <= e.offset && e.offset - base + 16 <= |mem|
    ensures PutEntry(mem, base, e).ok
    ensures ReadEntry(PutEntry(mem, base, e).mem, base, e.offset - base) == Some(e)
  {
    hide BigEndian, FromBigEndian, Decode;
    var local, at := Entry(e.offset - base, e.position), e.offset - base;
    assert Relative(e, base) == local;
    EntryRoundTrip(local);
    var bytes := Encode(local);
    hide Encode;
    assert bytes[..16] == bytes;
    assert Written(mem, bytes, at)[at..at + 16] == bytes;
  }

  class Index {
    const base: u64
    const mmap: array<byte>

    /** Maps the index file, of which `content` is what an earlier process left. */
    constructor (baseOffset: u64, content: Bytes)
      ensures base == baseOffset && fresh(mmap) && mmap[..] == Resized(content)
    {
      base := baseOffset;
      mmap := new byte[MAX_BYTES_INDEX](i => if 0 <= i < |content| then content[i] else 0);
      new;
      assert mmap[..] == Resized(content);
    }

    /** Copies byte by byte until the bytes or the room run out; `ok` is false
        where the source panics. */
    method WriteAt(bytes: Bytes, offset: nat) returns (ok: bool)
      modifies mmap
      ensures mmap[..] == Written(old(mmap[..]), bytes, offset)
      ensures ok == Fits(old(mmap[..]), bytes, offset)
    {
      if offset > mmap.Length {
        return false;
      }
      var i := 0;
      while i < |bytes| && offset + i < mmap.Length
        invariant i <= |bytes| && offset + i <= mmap.Length
        invariant forall k :: 0 <= k < mmap.Length ==>
                                mmap[k] == if offset <= k < offset + i then bytes[k - offset] else old(mmap[..])[k]
      {
        mmap[offset + i] := bytes[i];
        i := i + 1;
      }
      assert mmap[..] == Written(old(mmap[..]), bytes, offset);
      ok := i == |bytes|;
    }

    method WriteEntry(e: Entry) returns (ok: bool)
      modifies mmap
      ensures IndexResult(mmap[..], ok) == PutEntry(old(mmap[..]), base, e)
    {
      var local := Relative(e, base);
      ok := WriteAt(Encode(local), local.offset);
    }

    method Read(at: nat) returns (e: Option<Entry>)
      ensures e == ReadEntry(mmap[..], base, at)
    {
      if at + 16 > mmap.Length {
        return None;
      }
      assert mmap[at..at + 16] == mmap[..][at..at + 16];
      e := Decode(mmap[at..at + 16]);
      if e.Some? {
        e := Some(Entry((e.value.offset + base) % U64, e.value.position));
      }
    }
  }

  // ---- The segment ----

  /** `cursor` is where the next write to the file goes. */
  datatype SegmentState = SegmentState(file: Bytes, cursor: nat, nextOffset: u64, bytes: u64, mem: Bytes)

  datatype SegmentResult = SegmentResult(segment: SegmentState, ok: bool)

  /** A file after a write at `at`, over what is there. */
  function Put(file: Bytes, at: nat, record: Bytes): Bytes {
    var f := if at <= |file| then file else file + Zeros(at - |file|);
    f[..at] + record + if at + |record| <= |f| then f[at + |record|..] else []
  }

  /** The record goes to the file before the index is tried. */
  function Recorded(s: SegmentState, base: u64, record: Bytes): SegmentResult {
    var file, cursor := Put(s.file, s.cursor, record), s.cursor + |record|;
    var r := PutEntry(s.mem, base, Entry(s.nextOffset, s.bytes));
    if !r.ok then SegmentResult(s.(file := file, cursor := cursor, mem := r.mem), false)
    else
      SegmentResult(SegmentState(file, cursor, (s.nextOffset + 1) % U64, (s.bytes + |record|) % U64, r.mem), true)
  }

  /** A segment over the files an earlier process left, both empty for a new one:
      nothing is truncated, and counting starts at 0. */
  function Opened(file: Bytes, index: Bytes): SegmentState {
    SegmentState(file, 0, 0, 0, Resized(index))
  }

  class Segment {
    const index: Index
    var nextOffset: u64
    var bytes: u64
    var file: Bytes
    var cursor: nat

    ghost function State(): SegmentState
      reads this, index.mmap
    {
      SegmentState(file, cursor, nextOffset, bytes, index.mmap[..])
    }

    constructor (base: u64, log: Bytes, content: Bytes)
      ensures index.base == base && State() == Opened(log, content) && Unused(State())
    {
      index := new Index(base, content);
      nextOffset, bytes, file, cursor := 0, 0, log, 0;
    }

    method Write(record: Bytes) returns (ok: bool)
      modifies this, index.mmap
      ensures SegmentResult(State(), ok) == Recorded(old(State()), index.base, record)
    {
      file := Put(file, cursor, record);
      cursor := cursor + |record|;
      ok := index.WriteEntry(Entry(nextOffset, bytes));
      if ok {
        nextOffset := (nextOffset + 1) % U64;
        bytes := (bytes + |record|) % U64;
      }
    }
  }

  /** The segment at base 0 after a list of records, as long as the index holds out. */
  function RecordAll(start: SegmentState, records: seq<Bytes>): SegmentResult {
    if records == [] then SegmentResult(start, true)
    else
      var front := RecordAll(start, records[..|records| - 1]);
      if front.ok then Recorded(front.segment, 0, records[|records| - 1]) else front
  }

  /** A record for which the index has no room is in the file all the same, and
      the counters do not move. */
  lemma RefusedRecord(s: SegmentState, base: u64, record: Bytes)
    requires base <= s.nextOffset && s.cursor <= |s.file|
    ensures Recorded(s, base, record).ok <==> s.nextOffset - base + 16 <= |s.mem|
    ensures var r := Recorded(s, base, record).segment;
            && r.file[..s.cursor] == s.file[..s.cursor] && record <= r.file[s.cursor..] && r.cursor == s.cursor + |record|
            && (!Recorded(s, base, record).ok ==> r.nextOffset == s.nextOffset && r.bytes == s.bytes)
  {
    hide Written, Encode;
  }

  /** A segment that has just been opened. */
  ghost predicate Unused(s: SegmentState) {
    s.cursor == 0 && s.nextOffset == 0 && s.bytes == 0 && |s.mem| == MAX_BYTES_INDEX
  }

  /** Where record `k` starts in the file. */
  function Start(records: seq<Bytes>, k: nat): nat
    requires k <= |records|
  {
    if k == 0 then 0 else Start(records, k - 1) + |records[k - 1]|
  }

  /** Every byte below the last entry is the leading, zero, byte of an entry
      since overwritten by the next one. */
  ghost predicate Layout(mem: Bytes, last: nat, position: u64) {
    && |mem| == MAX_BYTES_INDEX && last + 16 <= MAX_BYTES_INDEX
    && (forall b :: 0 <= b < last ==> mem[b] == 0)
    && mem[last..last + 16] == Encode(Entry(last, position))
  }

  lemma {:induction false} LeadingByte(n: nat, width: nat)
    requires width > 0 && n < Pow256(width - 1)
    ensures BigEndian(n, width)[0] == 0
  {
    if width > 1 {
      LeadingByte(n / 256, width - 1);
      assert BigEndian(n, width)[..width - 1] == BigEndian(n / 256, width - 1);
    }
  }

  lemma SmallOffsets(n: nat)
    requires n < MAX_BYTES_INDEX
    ensures n < Pow256(7) && n < U64
  {
    assert Pow256(3) == 0x100_0000;
    assert Pow256(5) == 0x100_0000_0000;
  }

  lemma LayoutStep(mem: Bytes, last: nat, position: u64, next: u64)
    requires Layout(mem, last, position) && last + 1 + 16 <= MAX_BYTES_INDEX
    ensures Layout(Written(mem, Encode(Entry(last + 1, next)), last + 1), last + 1, next)
  {
    SmallOffsets(last);
    LeadingByte(last, 8);
    var bytes := Encode(Entry(last + 1, next));
    var mem' := Written(mem, bytes, last + 1);
    assert mem[last] == mem[last..last + 16][0] == Encode(Entry(last, position))[0];
    assert bytes[..16] == bytes;
    assert mem'[last + 1..last + 1 + 16] == bytes;
  }

  lemma {:induction false} StartPrefix(records: seq<Bytes>, k: nat)
    requires k < |records|
    ensures Start(records[..|records| - 1], k) == Start(records, k)
  {
    if k > 0 {
      StartPrefix(records, k - 1);
    }
  }

  /** The counters, the file and the map agree with the records written. */
  ghost predicate Tallies(s: SegmentState, records: seq<Bytes>) {
    && s.nextOffset == |records|
    && s.cursor == Start(records, |records|) <= |s.file| && s.bytes == s.cursor % U64
    && |s.mem| == MAX_BYTES_INDEX
    && (records != [] ==> Layout(s.mem, |records| - 1, Start(records, |records| - 1) % U64))
  }

  lemma PutNext(s: SegmentState, front: seq<Bytes>)
    requires Tallies(s, front) && |front| + 16 <= MAX_BYTES_INDEX
    ensures Layout(PutEntry(s.mem, 0, Entry(s.nextOffset, s.bytes)).mem, |front|, s.bytes)
  {
    hide Layout, Encode;
    if front == [] {
      FirstLayout(s.mem, s.bytes);
    } else {
      LayoutStep(s.mem, |front| - 1, Start(front, |front| - 1) % U64, s.bytes);
    }
  }

  /** A counter that wraps at every step has the wrapped total. */
  lemma WrapAdd(a: nat, b: nat)
    ensures (a % U64 + b) % U64 == (a + b) % U64
  {
    var q := a / U64;
    assert a == q * U64 + a % U64;
    WrapShift(a % U64 + b, q);
  }

  lemma {:induction false} WrapShift(x: nat, q: nat)
    ensures (x + q * U64) % U64 == x % U64
  {
    if q > 0 {
      WrapShift(x, q - 1);
      assert x + q * U64 == (x + (q - 1) * U64) + U64;
    }
  }

  lemma RecordOne(s: SegmentState, records: seq<Bytes>)
    requires records != [] && Tallies(s, records[..|records| - 1])
    ensures var r := Recorded(s, 0, records[|records| - 1]);
            && (r.ok <==> |records| - 1 + 16 <= MAX_BYTES_INDEX)
            && (r.ok ==> Tallies(r.segment, records))
  {
    hide Written, Layout, BigEndian;
    var front, last := records[..|records| - 1], records[|records| - 1];
    StartPrefix(records, |records| - 1);
    WrapAdd(s.cursor, |last|);
    assert Start(records, |records|) == s.cursor + |last|;
    if |front| + 16 <= MAX_BYTES_INDEX {
      PutNext(s, front);
    }
  }

  /** After any list of records the segment agrees with them. Writing fails
      exactly when the map has no room for one more entry. */
  lemma {:induction false} RecordedTallies(start: SegmentState, records: seq<Bytes>)
    requires Unused(start)
    ensures RecordAll(start, records).ok <==> |records| == 0 || |records| - 1 + 16 <= MAX_BYTES_INDEX
    ensures RecordAll(start, records).ok ==> Tallies(RecordAll(start, records).segment, records)
  {
    if records != [] {
      RecordedTallies(start, records[..|records| - 1]);
      hide Tallies, Recorded;
      if RecordAll(start, records[..|records| - 1]).ok {
        RecordOne(RecordAll(start, records[..|records| - 1]).segment, records);
      }
    }
  }

  lemma FirstLayout(mem: Bytes, position: u64)
    requires |mem| == MAX_BYTES_INDEX
    ensures Layout(Written(mem, Encode(Entry(0, position)), 0), 0, position)
  {
    var bytes := Encode(Entry(0, position));
    assert bytes[..16] == bytes;
    assert Written(mem, bytes, 0)[0..16] == bytes;
  }

  lemma PutKeeps(file: Bytes, at: nat, record: Bytes)
    requires at <= |file|
    ensures |Put(file, at, record)| >= at + |record|
    ensures Put(file, at, record)[..at] == file[..at] && Put(file, at, record)[at..at + |record|] == record
    ensures Put(file, at, record)[at + |record|..] == if at + |record| <= |file| then file[at + |record|..] else []
  {
  }

  /** The step of writing the last record. */
  lemma LastPut(start: SegmentState, records: seq<Bytes>)
    requires Unused(start) && records != [] && RecordAll(start, records).ok
    ensures var front := RecordAll(start, records[..|records| - 1]);
            && front.ok && front.segment.cursor == Start(records, |records| - 1) <= |front.segment.file|
            && RecordAll(start, records).segment.file == Put(front.segment.file, front.segment.cursor, records[|records| - 1])
  {
    hide Layout, PutEntry, Put;
    RecordedTallies(start, records);
    RecordedTallies(start, records[..|records| - 1]);
    StartPrefix(records, |records| - 1);
  }

  /** The file holds the records one after the other. */
  lemma {:induction false} FileHoldsRecord(start: SegmentState, records: seq<Bytes>, k: nat)
    requires Unused(start) && k < |records| && RecordAll(start, records).ok
    ensures Start(records, k) + |records[k]| <= |RecordAll(start, records).segment.file|
    ensures RecordAll(start, records).segment.file[Start(records, k)..Start(records, k) + |records[k]|] == records[k]
    decreases records
  {
    hide RecordAll, Put;
    var front := records[..|records| - 1];
    LastPut(start, records);
    StartPrefix(records, k);
    var before := RecordAll(start, front).segment;
    PutKeeps(before.file, before.cursor, records[|records| - 1]);
    if k < |front| {
      FileHoldsRecord(start, front, k);
      StartMonotone(records, k + 1, |front|);
      var file := RecordAll(start, records).segment.file;
      assert file[..before.cursor][Start(records, k)..Start(records, k) + |records[k]|] == records[k];
    }
  }

  lemma {:induction false} StartMonotone(records: seq<Bytes>, j: nat, k: nat)
    requires j <= k <= |records|
    ensures Start(records, j) <= Start(records, k)
    decreases k
  {
    if j < k {
      StartMonotone(records, j, k - 1);
    }
  }

  /** After the records the file is what it was. */
  lemma {:induction false} FileTail(start: SegmentState, records: seq<Bytes>)
    requires Unused(start) && RecordAll(start, records).ok
    ensures var file, end := RecordAll(start, records).segment.file, Start(records, |records|);
            end <= |file| && From(file, end) == From(start.file, end)
    decreases records
  {
    if records != [] {
      var front, last := records[..|records| - 1], records[|records| - 1];
      LastPut(start, records);
      StartPrefix(records, |records| - 1);
      FileTail(start, front);
      hide RecordAll, Put, From;
      var before := RecordAll(start, front).segment;
      PutTail(start.file, before.file, before.cursor, last);
    }
  }

  function From(file: Bytes, at: nat): Bytes {
    if at <= |file| then file[at..] else []
  }

  lemma PutTail(was: Bytes, file: Bytes, at: nat, record: Bytes)
    requires at <= |file| && From(file, at) == From(was, at)
    ensures at + |record| <= |Put(file, at, record)|
    ensures From(Put(file, at, record), at + |record|) == From(was, at + |record|)
  {
    var end := at + |record|;
    assert From(file, end) == From(From(file, at), |record|);
    assert From(was, end) == From(From(was, at), |record|);
    PutKeeps(file, at, record);
  }

  /** Looking up the last offset gives the position at which the last record starts in the file. */
  lemma LastRecordFound(start: SegmentState, records: seq<Bytes>)
    requires Unused(start) && records != [] && RecordAll(start, records).ok
    ensures |records| < MAX_BYTES_INDEX
    ensures Start(records, |records| - 1) + |records[|records| - 1]| <= |RecordAll(start, records).segment.file|
    ensures var s, last := RecordAll(start, records).segment, |records| - 1;
            && ReadEntry(s.mem, 0, last) == Some(Entry(last, Start(records, last) % U64))
            && s.file[Start(records, last)..Start(records, last) + |records[last]|] == records[last]
            && (start.file == [] ==> s.file[Start(records, last)..] == records[last])
  {
    hide RecordAll, BigEndian, FromBigEndian;
    RecordedTallies(start, records);
    var last := |records| - 1;
    EntryRoundTrip(Entry(last, Start(records, last) % U64));
    hide Encode, Decode;
    FileHoldsRecord(start, records, last);
    FileTail(start, records);
    var file, at := RecordAll(start, records).segment.file, Start(records, last);
    assert file[at..] == file[at..at + |records[last]|] + file[at + |records[last]|..];
  }

  // ---- Which entries can be read back ----

  lemma {:induction false} DropZeros(key: Bytes, d: nat)
    requires d <= |key| && forall b :: 0 <= b < d ==> key[b] == 0
    ensures FromBigEndian(key) == FromBigEndian(key[d..])
  {
    if d < |key| {
      DropZeros(key[..|key| - 1], d);
      assert key[d..][..|key[d..]| - 1] == key[..|key| - 1][d..];
    } else if d > 0 {
      DropZeros(key[..|key| - 1], d - 1);
      assert key[..|key| - 1][d - 1..] == [] && key[d..] == [];
    }
  }

  lemma {:induction false} PrefixBelow(key: Bytes, k: nat)
    requires k <= |key|
    ensures FromBigEndian(key[..k]) <= FromBigEndian(key)
  {
    if k < |key| {
      PrefixBelow(key[..|key| - 1], k);
      assert key[..|key| - 1][..k] == key[..k];
    } else {
      assert key[..k] == key;
    }
  }

  lemma {:induction false} NonZero(key: Bytes, j: nat)
    requires j < |key| && key[j] != 0
    ensures FromBigEndian(key) > 0
  {
    if j < |key| - 1 {
      NonZero(key[..|key| - 1], j);
    }
  }

  lemma {:induction false} ZeroBytes(width: nat, j: nat)
    requires j < width
    ensures BigEndian(0, width)[j] == 0
  {
    if j < width - 1 {
      ZeroBytes(width - 1, j);
    }
  }

  /** The map from `at` on: zeros up to the last entry, then its bytes. */
  lemma LayoutBytes(mem: Bytes, last: nat, position: u64, at: nat, bytes: Bytes)
    requires Layout(mem, last, position) && at <= last && bytes == mem[at..at + 16]
    ensures forall j :: 0 <= j < 16 ==>
                          bytes[j] == if j < last - at then 0 else Encode(Entry(last, position))[j - (last - at)]
  {
    forall j | 0 <= j < 16
      ensures bytes[j] == if j < last - at then 0 else Encode(Entry(last, position))[j - (last - at)]
    {
      if j >= last - at {
        assert mem[at + j] == mem[last..last + 16][j - (last - at)];
      }
    }
  }

  /** An older entry other than the first reads back with a smaller offset. */
  lemma OlderOffsetLost(mem: Bytes, last: nat, position: u64, at: nat)
    requires Layout(mem, last, position) && 0 < at < last
    ensures FromBigEndian(mem[at..at + 16][..8]) < at
  {
    LayoutBytes(mem, last, position, at, mem[at..at + 16]);
    var field, d := mem[at..at + 16][..8], last - at;
    if d >= 8 {
      DropZeros(field, 8);
      assert field[8..] == [];
    } else {
      DropZeros(field, d);
      var key := BigEndian(last, 8);
      assert field[d..] == key[..8 - d];
      assert key[..7] == BigEndian(last / 256, 7);
      assert key[..7][..8 - d] == key[..8 - d];
      PrefixBelow(key[..7], 8 - d);
      SmallOffsets(last);
      BigEndianRoundTrip(last / 256, 7);
    }
  }

  lemma LowByteOnly(n: nat)
    requires n < 256
    ensures forall j :: 0 <= j < 7 ==> BigEndian(n, 8)[j] == 0
    ensures BigEndian(n, 8)[7] == n as byte
  {
    forall j | 0 <= j < 7 ensures BigEndian(n, 8)[j] == 0 {
      ZeroBytes(7, j);
    }
  }

  /** The first entry, all zeros but for the last one's bytes reaching into it. */
  lemma FirstEntry(mem: Bytes, last: nat, position: u64)
    requires Layout(mem, last, position) && 0 < last
    ensures FromBigEndian(mem[0..16][..8]) == 0
    ensures FromBigEndian(mem[0..16][8..]) == 0 <==> last >= 9
  {
    var bytes := mem[0..16];
    LayoutBytes(mem, last, position, 0, bytes);
    if last < 256 {
      LowByteOnly(last);
    }
    DropZeros(bytes[..8], 8);
    assert bytes[..8][8..] == [];
    if last >= 9 {
      DropZeros(bytes[8..], 8);
      assert bytes[8..][8..] == [];
    } else {
      assert bytes[8..][last - 1] == bytes[last + 7] == last as byte;
      NonZero(bytes[8..], last - 1);
    }
  }

  /** Entries sit one byte apart while they are sixteen bytes long. An offset
      reads back as it was written exactly when it is the last one, or the
      first one once nine more have been written. */
  lemma ReadBackExactly(start: SegmentState, records: seq<Bytes>, i: nat)
    requires Unused(start) && i < |records| && RecordAll(start, records).ok
    ensures |records| < MAX_BYTES_INDEX
    ensures ReadEntry(RecordAll(start, records).segment.mem, 0, i) == Some(Entry(i, Start(records, i) % U64)) <==>
            i == |records| - 1 || (i == 0 && |records| > 9)
  {
    hide RecordAll, Layout, FromBigEndian, Tallies, ReadEntry;
    LayoutOf(start, records);
    var last := |records| - 1;
    var mem, position := RecordAll(start, records).segment.mem, Start(records, last) % U64;
    ReadFields(mem, i);
    if i == last {
      LastRecordFound(start, records);
    } else if i == 0 {
      FirstEntry(mem, last, position);
    } else {
      OlderOffsetLost(mem, last, position, i);
    }
  }

  /** With three one-byte records the second offset does not read back. */
  lemma SecondOffsetLost()
    ensures var records := [[1], [2], [3]];
            var mem := RecordAll(Opened([], []), records).segment.mem;
            && RecordAll(Opened([], []), records).ok
            && Start(records, 1) == 1 && ReadEntry(mem, 0, 1) != Some(Entry(1, 1))
            && ReadEntry(mem, 0, 2) == Some(Entry(2, 2))
  {
    hide RecordAll, Opened, ReadEntry;
    var records := [[1], [2], [3]];
    var start := Opened([], []);
    assert Unused(start) by { OpenedUnused([], []); }
    RecordedTallies(start, records);
    assert Start(records, 1) == 1 && Start(records, 2) == 2;
    ReadBackExactly(start, records, 1);
    ReadBackExactly(start, records, 2);
  }

  lemma OpenedUnused(file: Bytes, index: Bytes)
    ensures Unused(Opened(file, index))
  {
  }

  lemma LayoutOf(start: SegmentState, records: seq<Bytes>)
    requires Unused(start) && records != [] && RecordAll(start, records).ok
    ensures |records| < MAX_BYTES_INDEX && |RecordAll(start, records).segment.mem| == MAX_BYTES_INDEX
    ensures |records| - 1 + 16 <= MAX_BYTES_INDEX
    ensures Layout(RecordAll(start, records).segment.mem, |records| - 1, Start(records, |records| - 1) % U64)
  {
    hide RecordAll;
    RecordedTallies(start, records);
  }

  lemma ReadFields(mem: Bytes, at: nat)
    requires at + 16 <= |mem|
    ensures FromBigEndian(mem[at..at + 16][..8]) < U64 && FromBigEndian(mem[at..at + 16][8..]) < U64
    ensures ReadEntry(mem, 0, at) == Some(Entry(FromBigEndian(mem[at..at + 16][..8]), FromBigEndian(mem[at..at + 16][8..])))
  {
    hide FromBigEndian;
    WidthOfKey();
    FromBigEndianBound(mem[at..at + 16][..8]);
    FromBigEndianBound(mem[at..at + 16][8..]);
  }

  /** A segment counts its offsets from 0 whatever its base, while its index
      takes them relative to the base. So a segment just opened accepts a record
      only at base 0, or where the wrapped difference is small enough for the map. */
  lemma FirstWriteAccepted(start: SegmentState, base: u64, record: Bytes)
    requires Unused(start)
    ensures Recorded(start, base, record).ok <==> base == 0 || U64 - base + 16 <= MAX_BYTES_INDEX
  {
    hide Written;
  }

  /** A new segment at base 1 does not take its first record. */
  lemma BaseOneRefuses(record: Bytes)
    ensures !Recorded(Opened([], []), 1, record).ok
  {
    hide Recorded;
    OpenedUnused([], []);
    FirstWriteAccepted(Opened([], []), 1, record);
  }
}
