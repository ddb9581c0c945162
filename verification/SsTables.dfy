/** Table files: building, looking up and iterating (crates/storage/src/sstable.rs). */
module SsTables {
  import opened Prelude
  import opened Codec
  import opened LsmSpec
  import opened LsmOrder
  import opened SsBlocks
  import Bloom

  datatype BlockMeta = BlockMeta(firstKey: Bytes, offset: nat, len: nat, crc: nat)

  datatype TableIndex = TableIndex(blocks: seq<BlockMeta>, bloom: Bytes, entryCount: nat, minKey: Bytes, maxKey: Bytes, maxSeq: nat)

  /** An opened table: the data part of its file, its index and the decoded filter. */
  datatype SsTable = SsTable(data: Bytes, index: TableIndex, bloom: Bloom.BloomFilter)

  // ------------------------------------------------------------- blocks of entries

  function Flat(chunks: seq<seq<Ver>>): seq<Ver> {
    if chunks == [] then [] else Flat(chunks[..|chunks| - 1]) + chunks[|chunks| - 1]
  }

  function Files(chunks: seq<seq<Ver>>): seq<Bytes> {
    seq(|chunks|, i requires 0 <= i < |chunks| => EncodeBlock(chunks[i]))
  }

  lemma {:induction false} FlatConcat(a: seq<seq<Ver>>, b: seq<seq<Ver>>)
    ensures Flat(a + b) == Flat(a) + Flat(b)
    decreases |b|
  {
    if b == [] {
      assert a + b == a;
    } else {
      var k := |b| - 1;
      FlatConcat(a, b[..k]);
      assert (a + b)[..|a| + k] == a + b[..k];
      assert Flat(a + b) == (Flat(a) + Flat(b[..k])) + b[k] == Flat(a) + (Flat(b[..k]) + b[k]);
    }
  }

  lemma FlatTail(chunks: seq<seq<Ver>>, i: nat)
    requires i < |chunks|
    ensures Flat(chunks[i..]) == chunks[i] + Flat(chunks[i + 1..])
  {
    FlatConcat([chunks[i]], chunks[i + 1..]);
    assert [chunks[i]] + chunks[i + 1..] == chunks[i..];
    assert Flat([chunks[i]]) == chunks[i] by { assert [chunks[i]][..0] == []; }
  }

  lemma FlatSplit(chunks: seq<seq<Ver>>, i: nat)
    requires i < |chunks|
    ensures Flat(chunks) == Flat(chunks[..i]) + chunks[i] + Flat(chunks[i + 1..])
    ensures Flat(chunks[i..]) == chunks[i] + Flat(chunks[i + 1..])
  {
    FlatTail(chunks, i);
    FlatCut(chunks, i + 1);
    FlatHead(chunks, i);
  }

  lemma FlatCut(chunks: seq<seq<Ver>>, i: nat)
    requires i <= |chunks|
    ensures Flat(chunks) == Flat(chunks[..i]) + Flat(chunks[i..])
  {
    FlatConcat(chunks[..i], chunks[i..]);
    assert chunks[..i] + chunks[i..] == chunks;
  }

  lemma FlatHead(chunks: seq<seq<Ver>>, i: nat)
    requires i < |chunks|
    ensures Flat(chunks[..i + 1]) == Flat(chunks[..i]) + chunks[i]
  {
    assert chunks[..i + 1][..i] == chunks[..i];
  }

  ghost predicate MetaOk(b: BlockMeta, chunks: seq<seq<Ver>>, i: nat, crc: Bytes -> nat)
    requires i < |chunks|
  {
    && chunks[i] != []
    && b == BlockMeta(chunks[i][0].key, |Join(Files(chunks)[..i])|, |EncodeBlock(chunks[i])|, crc(EncodeBlock(chunks[i])))
  }

  ghost predicate MetasOk(blocks: seq<BlockMeta>, chunks: seq<seq<Ver>>, crc: Bytes -> nat) {
    |blocks| == |chunks| && forall i :: 0 <= i < |chunks| ==> MetaOk(blocks[i], chunks, i, crc)
  }

  ghost predicate AllFit(es: seq<Ver>) { forall i :: 0 <= i < |es| ==> Fits(es[i]) }

  /** The data part of the file and the block index describe the same blocks. */
  ghost predicate BlocksOk(data: Bytes, blocks: seq<BlockMeta>, chunks: seq<seq<Ver>>, crc: Bytes -> nat) {
    var fit := forall i :: 0 <= i < |chunks| ==> AllFit(chunks[i]);
    var metas := MetasOk(blocks, chunks, crc);
    fit && metas && data == Join(Files(chunks))
  }

  /** What the bytes of one block read as: nothing when they run past the file or fail the check. */
  function BlockRead(data: Bytes, m: BlockMeta, crc: Bytes -> nat): Option<seq<Ver>> {
    if m.offset + m.len <= |data| && crc(data[m.offset..m.offset + m.len]) == m.crc
    then DecodeFrom(data[m.offset..m.offset + m.len], 0) else None
  }

  lemma IntactRead(data: Bytes, m: BlockMeta, crc: Bytes -> nat, bytes: Bytes)
    requires Lies(data, bytes, m.offset, m.offset + m.len) && m.crc == crc(bytes)
    ensures BlockRead(data, m, crc) == DecodeFrom(bytes, 0)
  {}

  lemma BlockBack(data: Bytes, blocks: seq<BlockMeta>, chunks: seq<seq<Ver>>, crc: Bytes -> nat, i: nat)
    requires BlocksOk(data, blocks, chunks, crc) && i < |chunks|
    ensures BlockRead(data, blocks[i], crc) == Some(chunks[i])
  {
    assert MetaOk(blocks[i], chunks, i, crc) && AllFit(chunks[i]);
    PartAt(Files(chunks), i);
    NextOffset(Files(chunks), i);
    IntactRead(data, blocks[i], crc, EncodeBlock(chunks[i]));
    DecodeBack(chunks[i]);
  }

  /** Reads, checks and decodes the bytes of one block. */
  method ReadBlock(data: Bytes, m: BlockMeta, crc: Bytes -> nat) returns (r: Option<seq<Ver>>)
    ensures r == BlockRead(data, m, crc)
    ensures forall es :: r == Some(es) <==>
              var end := m.offset + m.len;
              end <= |data| && crc(data[m.offset..end]) == m.crc && Holds(data[m.offset..end], es)
  {
    if m.offset + m.len > |data| { return None; }
    var buf := data[m.offset..m.offset + m.len];
    if crc(buf) != m.crc { return None; }
    r := DecodeBlock(buf);
  }

  /** Of an intact table every block comes back as it was written. */
  method ReadIntact(data: Bytes, blocks: seq<BlockMeta>, i: nat, crc: Bytes -> nat, ghost chunks: seq<seq<Ver>>) returns (r: Option<seq<Ver>>)
    requires BlocksOk(data, blocks, chunks, crc) && i < |blocks|
    ensures |blocks| == |chunks| && r == Some(chunks[i])
  {
    BlockBack(data, blocks, chunks, crc, i);
    r := ReadBlock(data, blocks[i], crc);
  }

  // ------------------------------------------------------------- looking a key up

  lemma {:induction false} FirstHitConcat(a: seq<Ver>, b: seq<Ver>, k: Bytes, s: nat)
    ensures FirstHit(a + b, k, s) == if FirstHit(a, k, s).Some? then FirstHit(a, k, s) else FirstHit(b, k, s)
    decreases |a|
  {
    if a == [] {
      assert a + b == b;
    } else {
      FirstHitConcat(a[1..], b, k, s);
      assert (a + b)[1..] == a[1..] + b;
    }
  }

  lemma {:induction false} NoHit(run: seq<Ver>, k: Bytes, s: nat)
    requires forall i :: 0 <= i < |run| ==> run[i].key != k
    ensures FirstHit(run, k, s) == None
  {
    if run != [] { NoHit(run[1..], k, s); }
  }

  lemma KeysInOrder(es: seq<Ver>, i: nat, j: nat)
    requires Sorted(es) && i <= j < |es|
    ensures es[i].key == es[j].key || Less(es[i].key, es[j].key)
  {
    if i < j { assert Before(es[i], es[j]); }
  }

  /** Everything from an entry with a larger key on has a larger key. */
  lemma AllLater(es: seq<Ver>, i: nat, k: Bytes, s: nat)
    requires Sorted(es) && i < |es| && Less(k, es[i].key)
    ensures FirstHit(es[i..], k, s) == None
  {
    forall j | 0 <= j < |es[i..]| ensures es[i..][j].key != k {
      KeysInOrder(es, i, i + j);
      if es[i].key != es[i + j].key { LessTransitive(k, es[i].key, es[i + j].key); }
      LessIrreflexive(k);
    }
    NoHit(es[i..], k, s);
  }

  /** Everything up to an entry with a smaller key has a smaller key. */
  lemma AllEarlier(es: seq<Ver>, i: nat, k: Bytes, s: nat)
    requires Sorted(es) && i < |es| && Less(es[i].key, k)
    ensures FirstHit(es[..i], k, s) == None
  {
    forall j | 0 <= j < i ensures es[..i][j].key != k {
      KeysInOrder(es, j, i);
      if es[j].key != es[i].key { LessTransitive(es[j].key, es[i].key, k); }
      LessIrreflexive(k);
    }
    NoHit(es[..i], k, s);
  }

  lemma FlatIndex(chunks: seq<seq<Ver>>, i: nat)
    requires i < |chunks| && chunks[i] != []
    ensures |Flat(chunks[..i])| < |Flat(chunks)| && Flat(chunks)[|Flat(chunks[..i])|] == chunks[i][0]
    ensures Flat(chunks)[..|Flat(chunks[..i])|] == Flat(chunks[..i]) && Flat(chunks)[|Flat(chunks[..i])|..] == Flat(chunks[i..])
  {
    FlatSplit(chunks, i);
    FlatCut(chunks, i);
  }

  lemma FlatLonger(chunks: seq<seq<Ver>>, i: nat, j: nat)
    requires i <= j <= |chunks|
    ensures |Flat(chunks[..i])| <= |Flat(chunks[..j])|
  {
    FlatConcat(chunks[..i], chunks[i..j]);
    assert chunks[..i] + chunks[i..j] == chunks[..j];
  }

  lemma FirstKeysAscend(chunks: seq<seq<Ver>>, i: nat, j: nat)
    requires i < j < |chunks| && chunks[i] != [] && chunks[j] != [] && Sorted(Flat(chunks))
    ensures chunks[i][0].key == chunks[j][0].key || Less(chunks[i][0].key, chunks[j][0].key)
  {
    FlatIndex(chunks, i);
    FlatIndex(chunks, j);
    FlatLonger(chunks, i, j);
    KeysInOrder(Flat(chunks), |Flat(chunks[..i])|, |Flat(chunks[..j])|);
  }

  ghost predicate FirstKeysOrdered(blocks: seq<BlockMeta>) {
    forall i, j :: 0 <= i < j < |blocks| ==> blocks[i].firstKey == blocks[j].firstKey || Less(blocks[i].firstKey, blocks[j].firstKey)
  }

  lemma BlocksOrdered(data: Bytes, blocks: seq<BlockMeta>, chunks: seq<seq<Ver>>, crc: Bytes -> nat)
    requires BlocksOk(data, blocks, chunks, crc) && Sorted(Flat(chunks))
    ensures FirstKeysOrdered(blocks)
  {
    forall i, j | 0 <= i < j < |blocks|
      ensures blocks[i].firstKey == blocks[j].firstKey || Less(blocks[i].firstKey, blocks[j].firstKey)
    {
      assert MetaOk(blocks[i], chunks, i, crc) && MetaOk(blocks[j], chunks, j, crc);
      FirstKeysAscend(chunks, i, j);
    }
  }

  /** The number of blocks that start before the key, by binary search. */
  method BlocksBefore(blocks: seq<BlockMeta>, k: Bytes) returns (idx: nat)
    requires FirstKeysOrdered(blocks)
    ensures idx <= |blocks| && (idx > 0 ==> Less(blocks[idx - 1].firstKey, k))
    ensures idx < |blocks| ==> !Less(blocks[idx].firstKey, k)
  {
    var lo, hi := 0, |blocks|;
    while lo < hi
      invariant 0 <= lo <= hi <= |blocks|
      invariant (lo > 0 ==> Less(blocks[lo - 1].firstKey, k)) && (hi < |blocks| ==> !Less(blocks[hi].firstKey, k))
    {
      var mid := (lo + hi) / 2;
      if Less(blocks[mid].firstKey, k) { lo := mid + 1; } else { hi := mid; }
    }
    idx := lo;
  }

  datatype Scan = Hit(x: Ver) | Past(at: nat) | Exhausted

  /** One block scanned for the key: a hit, an entry behind the key, or neither. */
  method ScanEntries(es: seq<Ver>, k: Bytes, s: nat) returns (r: Scan)
    ensures r.Hit? ==> FirstHit(es, k, s) == Some(r.x)
    ensures !r.Hit? ==> FirstHit(if r.Past? && r.at < |es| then es[..r.at] else es, k, s) == None
    ensures r.Past? ==> r.at < |es| && Less(k, es[r.at].key)
  {
    for i := 0 to |es|
      invariant FirstHit(es[..i], k, s) == None
    {
      FirstHitConcat(es[..i], es[i..], k, s);
      assert es[..i] + es[i..] == es;
      FirstHitConcat(es[..i], [es[i]], k, s);
      assert es[..i] + [es[i]] == es[..i + 1];
      if Less(es[i].key, k) {
        LessIrreflexive(k);
        continue;
      }
      if es[i].key == k {
        if es[i].num <= s { return Hit(es[i]); }
      } else {
        LessTotal(es[i].key, k);
        return Past(i);
      }
    }
    assert es[..|es|] == es;
    r := Exhausted;
  }

  /** What is left to search after block `idx` without a hit. */
  lemma NextBlock(chunks: seq<seq<Ver>>, idx: nat, k: Bytes, s: nat)
    requires idx < |chunks| && FirstHit(chunks[idx], k, s) == None
    ensures FirstHit(Flat(chunks[idx..]), k, s) == FirstHit(Flat(chunks[idx + 1..]), k, s)
  {
    FlatSplit(chunks, idx);
    FirstHitConcat(chunks[idx], Flat(chunks[idx + 1..]), k, s);
  }

  lemma PastInBlock(chunks: seq<seq<Ver>>, idx: nat, at: nat, k: Bytes, s: nat)
    requires Sorted(Flat(chunks)) && idx < |chunks| && at < |chunks[idx]| && Less(k, chunks[idx][at].key)
    requires FirstHit(chunks[idx][..at], k, s) == None
    ensures FirstHit(Flat(chunks[idx..]), k, s) == None
  {
    FlatIndex(chunks, idx);
    FlatTail(chunks, idx);
    PastInRun(Flat(chunks), |Flat(chunks[..idx])|, chunks[idx], Flat(chunks[idx + 1..]), at, k, s);
  }

  lemma PastInRun(es: seq<Ver>, base: nat, block: seq<Ver>, more: seq<Ver>, at: nat, k: Bytes, s: nat)
    requires Sorted(es) && base <= |es| && es[base..] == block + more && at < |block| && Less(k, block[at].key)
    requires FirstHit(block[..at], k, s) == None
    ensures FirstHit(block + more, k, s) == None
  {
    var rest := block + more;
    assert rest[..at] == block[..at] && rest[at] == block[at];
    assert es[base + at] == es[base..][at] && es[base + at..] == rest[at..];
    AllLater(es, base + at, k, s);
    FirstHitConcat(rest[..at], rest[at..], k, s);
    assert rest == rest[..at] + rest[at..];
  }

  lemma PastAtBlock(chunks: seq<seq<Ver>>, idx: nat, k: Bytes, s: nat)
    requires Sorted(Flat(chunks)) && idx < |chunks| && chunks[idx] != [] && Less(k, chunks[idx][0].key)
    ensures FirstHit(Flat(chunks[idx..]), k, s) == None
  {
    PastInBlock(chunks, idx, 0, k, s);
  }

  lemma StartBlock(chunks: seq<seq<Ver>>, idx: nat, k: Bytes, s: nat)
    requires Sorted(Flat(chunks)) && idx < |chunks| && chunks[idx] != [] && Less(chunks[idx][0].key, k)
    ensures FirstHit(Flat(chunks), k, s) == FirstHit(Flat(chunks[idx..]), k, s)
  {
    FlatIndex(chunks, idx);
    var es, base := Flat(chunks), |Flat(chunks[..idx])|;
    AllEarlier(es, base, k, s);
    FirstHitConcat(es[..base], es[base..], k, s);
    assert es == es[..base] + es[base..];
  }

  /** The newest version of the key at `s`, found through the sparse block index: the same answer as a scan of
      all entries, even when the versions of the key straddle blocks. */
  method SearchBlocks(data: Bytes, blocks: seq<BlockMeta>, crc: Bytes -> nat, k: Bytes, s: nat, ghost chunks: seq<seq<Ver>>)
    returns (r: Option<Ver>)
    requires BlocksOk(data, blocks, chunks, crc) && Sorted(Flat(chunks)) && blocks != []
    ensures r == FirstHit(Flat(chunks), k, s)
  {
    var idx := StartAt(data, blocks, crc, k, s, chunks);
    while true
      invariant idx < |blocks| == |chunks| && FirstHit(Flat(chunks), k, s) == FirstHit(Flat(chunks[idx..]), k, s)
      decreases |blocks| - idx
    {
      var done, hit := SearchBlock(data, blocks, idx, crc, k, s, chunks);
      if done { return hit; }
      idx := idx + 1;
    }
  }

  /** The last block that starts before the key, or the first block. */
  method StartAt(data: Bytes, blocks: seq<BlockMeta>, crc: Bytes -> nat, k: Bytes, ghost s: nat, ghost chunks: seq<seq<Ver>>)
    returns (idx: nat)
    requires BlocksOk(data, blocks, chunks, crc) && Sorted(Flat(chunks)) && blocks != []
    ensures idx < |blocks| == |chunks| && FirstHit(Flat(chunks), k, s) == FirstHit(Flat(chunks[idx..]), k, s)
  {
    BlocksOrdered(data, blocks, chunks, crc);
    idx := BlocksBefore(blocks, k);
    idx := if idx == 0 then 0 else idx - 1;
    assert MetaOk(blocks[idx], chunks, idx, crc);
    if Less(blocks[idx].firstKey, k) { StartBlock(chunks, idx, k, s); } else { assert chunks[0..] == chunks; }
  }

  /** One block: the answer, or the next block continues the key. */
  method SearchBlock(data: Bytes, blocks: seq<BlockMeta>, idx: nat, crc: Bytes -> nat, k: Bytes, s: nat, ghost chunks: seq<seq<Ver>>)
    returns (done: bool, hit: Option<Ver>)
    requires BlocksOk(data, blocks, chunks, crc) && Sorted(Flat(chunks)) && idx < |blocks| == |chunks|
    ensures done ==> hit == FirstHit(Flat(chunks[idx..]), k, s)
    ensures !done ==> idx + 1 < |blocks| && FirstHit(Flat(chunks[idx..]), k, s) == FirstHit(Flat(chunks[idx + 1..]), k, s)
  {
    var es := ReadIntact(data, blocks, idx, crc, chunks);
    var scan := ScanEntries(es.value, k, s);
    match scan
    case Hit(x) =>
      FlatSplit(chunks, idx);
      FirstHitConcat(chunks[idx], Flat(chunks[idx + 1..]), k, s);
      return true, Some(x);
    case Past(at) =>
      PastInBlock(chunks, idx, at, k, s);
      return true, None;
    case Exhausted =>
      NextBlock(chunks, idx, k, s);
      if idx + 1 >= |blocks| {
        assert chunks[idx + 1..] == [];
        return true, None;
      }
      assert MetaOk(blocks[idx + 1], chunks, idx + 1, crc);
      if Less(k, blocks[idx + 1].firstKey) {
        PastAtBlock(chunks, idx + 1, k, s);
        return true, None;
      }
      return false, None;
  }

  // ------------------------------------------------------------- whole tables

  /** The filter rejects no key of the table. */
  ghost predicate FilterOk(f: Bloom.BloomFilter, es: seq<Ver>, hash: Bytes -> Bloom.u64) {
    f.Ok() && forall x :: x in es ==> f.HasHash(hash(x.key))
  }

  /** The file holds the entries `Flat(chunks)`, cut into blocks, with an index and a filter for them. */
  ghost predicate TableOk(t: SsTable, chunks: seq<seq<Ver>>, crc: Bytes -> nat, hash: Bytes -> Bloom.u64) {
    var es := Flat(chunks);
    var filter := FilterOk(t.bloom, es, hash);
    && BlocksOk(t.data, t.index.blocks, chunks, crc)
    && es != [] && Sorted(es) && t.index.minKey == es[0].key && t.index.maxKey == es[|es| - 1].key
    && filter
  }

  lemma OutOfRange(es: seq<Ver>, k: Bytes, s: nat)
    requires Sorted(es) && es != [] && (Less(k, es[0].key) || Less(es[|es| - 1].key, k))
    ensures FirstHit(es, k, s) == None
  {
    if Less(k, es[0].key) {
      AllLater(es, 0, k, s);
      assert es[0..] == es;
    } else {
      AllEarlier(es, |es| - 1, k, s);
      FirstHitConcat(es[..|es| - 1], es[|es| - 1..], k, s);
      assert es == es[..|es| - 1] + es[|es| - 1..];
      LessIrreflexive(k);
    }
  }

  lemma FilteredOut(f: Bloom.BloomFilter, es: seq<Ver>, hash: Bytes -> Bloom.u64, k: Bytes, s: nat)
    requires FilterOk(f, es, hash) && !f.HasHash(hash(k))
    ensures FirstHit(es, k, s) == None
  {
    forall i | 0 <= i < |es| ensures es[i].key != k { assert es[i] in es; }
    NoHit(es, k, s);
  }

  /** `SsTable::get`: range, filter and block index together answer like a scan of all entries. */
  method Get(t: SsTable, crc: Bytes -> nat, hash: Bytes -> Bloom.u64, k: Bytes, s: nat, ghost chunks: seq<seq<Ver>>) returns (r: Option<Ver>)
    requires TableOk(t, chunks, crc, hash) && hash(k) == Bloom.KeyHash(k)
    ensures r == FirstHit(Flat(chunks), k, s)
  {
    if Less(k, t.index.minKey) || Less(t.index.maxKey, k) {
      OutOfRange(Flat(chunks), k, s);
      return None;
    }
    var may := Bloom.MayContain(t.bloom, k);
    if !may {
      FilteredOut(t.bloom, Flat(chunks), hash, k, s);
      return None;
    }
    r := SearchBlocks(t.data, t.index.blocks, crc, k, s, chunks);
  }

  // ------------------------------------------------------------- iterating

  class TableIter {
    const table: SsTable
    const crc: Bytes -> nat
    var blockIdx: nat
    var entries: seq<Ver>
    ghost const chunks: seq<seq<Ver>>

    ghost predicate Valid()
      reads this
    {
      BlocksOk(table.data, table.index.blocks, chunks, crc) && blockIdx <= |table.index.blocks| == |chunks|
    }

    constructor (t: SsTable, c: Bytes -> nat, ghost ch: seq<seq<Ver>>)
      requires BlocksOk(t.data, t.index.blocks, ch, c)
      ensures Valid() && table == t && crc == c && chunks == ch && Rest() == Flat(ch)
    {
      table, crc, chunks, blockIdx, entries := t, c, ch, 0, [];
      new;
      assert chunks[0..] == chunks;
    }

    /** What the iterator has not yielded yet. */
    ghost function Rest(): seq<Ver>
      requires blockIdx <= |chunks|
      reads this
    {
      entries + Flat(chunks[blockIdx..])
    }

    /** Decodes the next block. */
    method Load()
      requires Valid() && entries == [] && blockIdx < |table.index.blocks|
      modifies this
      ensures Valid() && Rest() == old(Rest()) && blockIdx == old(blockIdx) + 1
    {
      var block := ReadIntact(table.data, table.index.blocks, blockIdx, crc, chunks);
      FlatSplit(chunks, blockIdx);
      entries, blockIdx := block.value, blockIdx + 1;
    }

    method Next() returns (r: Option<Ver>)
      requires Valid()
      modifies this
      ensures Valid()
      ensures r.None? ==> old(Rest()) == [] && Rest() == []
      ensures r.Some? ==> old(Rest()) == [r.value] + Rest()
    {
      while entries == [] && blockIdx < |table.index.blocks|
        invariant Valid() && Rest() == old(Rest())
        decreases |table.index.blocks| - blockIdx
      {
        Load();
      }
      if entries == [] {
        NothingLeft(chunks, blockIdx);
        return None;
      }
      r := Some(entries[0]);
      TakeFirst(entries, Flat(chunks[blockIdx..]));
      entries := entries[1..];
    }
  }

  lemma NothingLeft(chunks: seq<seq<Ver>>, i: nat)
    requires i == |chunks|
    ensures Flat(chunks[i..]) == []
  {
    assert chunks[i..] == [];
  }

  lemma TakeFirst(a: seq<Ver>, b: seq<Ver>)
    requires a != []
    ensures a + b == [a[0]] + (a[1..] + b)
  {}

  // ------------------------------------------------------------- building

  class TableBuilder {
    const blockBytes: nat
    const bitsPerKey: nat
    const probes: nat
    const crc: Bytes -> nat
    const hash: Bytes -> Bloom.u64
    var file: Bytes
    var block: Bytes
    var blockFirstKey: Option<Bytes>
    var blocks: seq<BlockMeta>
    var offset: nat
    var keyHashes: seq<Bloom.u64>
    var lastUserKey: Option<Bytes>
    var entryCount: nat
    var minKey: Option<Bytes>
    var maxKey: Option<Bytes>
    var maxSeq: nat
    ghost var chunks: seq<seq<Ver>>
    ghost var open: seq<Ver>

    ghost function Added(): seq<Ver>
      reads this
    {
      Flat(chunks) + open
    }

    ghost predicate Valid()
      reads this
    {
      var valid :=
        && 1 <= probes <= 30
        && Writing(file, blocks, chunks, crc, offset, open, block, blockFirstKey)
        && Summary(Added(), entryCount, keyHashes, hash, minKey, maxKey, lastUserKey);
      valid
    }

    constructor (bb: nat, bpk: nat, k: nat, c: Bytes -> nat, h: Bytes -> Bloom.u64)
      requires 1 <= k <= 30
      ensures Valid() && Added() == [] && crc == c && hash == h
    {
      blockBytes, bitsPerKey, probes, crc, hash := bb, bpk, k, c, h;
      file, block, blockFirstKey, blocks, offset := [], [], None, [], 0;
      keyHashes, lastUserKey, entryCount, minKey, maxKey, maxSeq := [], None, 0, None, None, 0;
      chunks, open := [], [];
    }

    method CloseBlock()
      requires Writing(file, blocks, chunks, crc, offset, open, block, blockFirstKey) && block != []
      modifies this`file, this`block, this`blockFirstKey, this`blocks, this`offset, this`chunks, this`open
      ensures Writing(file, blocks, chunks, crc, offset, open, block, blockFirstKey) && open == []
      ensures Flat(chunks) == old(Added())
    {
      BlockClosed(file, blocks, chunks, crc, offset, open, block, blockFirstKey);
      AddedKept(chunks, open);
      var meta := BlockMeta(blockFirstKey.value, offset, |block|, crc(block));
      file, blocks, offset := file + block, blocks + [meta], offset + |block|;
      chunks, open, block, blockFirstKey := chunks + [open], [], [], None;
    }

    /** Ends the current block, if it has entries. */
    method FlushBlock()
      requires Valid()
      modifies this`file, this`block, this`blockFirstKey, this`blocks, this`offset, this`chunks, this`open
      ensures Valid() && Added() == old(Added()) == Flat(chunks) && open == []
    {
      if block == [] {
        EmptyBlock(open);
      } else {
        CloseBlock();
      }
      assert Flat(chunks) + [] == Flat(chunks);
    }

    method Note(x: Ver, ghost es: seq<Ver>)
      requires Summary(es, entryCount, keyHashes, hash, minKey, maxKey, lastUserKey) && (es != [] ==> Before(es[|es| - 1], x))
      modifies this`keyHashes, this`lastUserKey, this`minKey, this`maxKey, this`maxSeq, this`entryCount
      ensures Summary(es + [x], entryCount, keyHashes, hash, minKey, maxKey, lastUserKey)
    {
      SortedAppend(es, x);
      if lastUserKey != Some(x.key) {
        HashAdded(es, keyHashes, hash, x);
        keyHashes := keyHashes + [hash(x.key)];
        lastUserKey := Some(x.key);
      } else {
        HashKept(es, keyHashes, hash, x);
      }
      if minKey.None? { minKey := Some(x.key); }
      maxKey := Some(x.key);
      maxSeq := Max(maxSeq, x.num);
      entryCount := entryCount + 1;
    }

    /** Adds an entry behind all others. */
    method Add(x: Ver)
      requires Valid() && Fits(x) && (Added() != [] ==> Before(Added()[|Added()| - 1], x))
      modifies this
      ensures Valid() && Added() == old(Added()) + [x]
    {
      Note(x, Added());
      if blockFirstKey.None? { blockFirstKey := Some(x.key); }
      OneMore(file, blocks, chunks, crc, offset, open, block, x);
      block := block + EncodeEntry(x);
      open := open + [x];
      if |block| >= blockBytes { FlushBlock(); }
    }

    /** Ends the table.  The file answers lookups for exactly the entries added. */
    method Finish() returns (t: SsTable, ghost ch: seq<seq<Ver>>)
      requires Valid() && Added() != []
      modifies this
      ensures TableOk(t, ch, crc, hash) && Flat(ch) == old(Added()) && t.index.entryCount == |Flat(ch)|
      ensures Bloom.Decode(t.index.bloom) == Some(t.bloom)
    {
      ghost var es := Added();
      FlushBlock();
      ch := chunks;
      assert Flat(ch) == es;
      var f, encoded := MakeFilter(keyHashes, bitsPerKey, probes, hash, es);
      t := SsTable(file, TableIndex(blocks, encoded, entryCount, minKey.value, maxKey.value, maxSeq), f);
    }
  }

  method MakeFilter(hashes: seq<Bloom.u64>, bitsPerKey: nat, probes: nat, ghost hash: Bytes -> Bloom.u64, ghost es: seq<Ver>)
    returns (f: Bloom.BloomFilter, encoded: Bytes)
    requires 1 <= probes <= 30 && HashesOk(es, hashes, hash)
    ensures FilterOk(f, es, hash) && Bloom.Decode(encoded) == Some(f)
  {
    f := Bloom.FromHashes(hashes, bitsPerKey, probes);
    FilterFrom(f, es, hashes, hash);
    Bloom.EncodeRoundTrip(f);
    encoded := Bloom.Encode(f);
  }

  /** The file and the open block of a builder. */
  ghost predicate Writing(file: Bytes, blocks: seq<BlockMeta>, chunks: seq<seq<Ver>>, crc: Bytes -> nat, offset: nat,
                          open: seq<Ver>, block: Bytes, firstKey: Option<Bytes>) {
    var writing :=
      && BlocksOk(file, blocks, chunks, crc) && offset == |file|
      && AllFit(open) && block == EncodeBlock(open) && firstKey == (if open == [] then None else Some(open[0].key));
    writing
  }

  /** What a builder knows of the entries so far. */
  ghost predicate Summary(es: seq<Ver>, count: nat, hashes: seq<Bloom.u64>, hash: Bytes -> Bloom.u64,
                          minKey: Option<Bytes>, maxKey: Option<Bytes>, lastKey: Option<Bytes>) {
    var known :=
      && Sorted(es) && HashesOk(es, hashes, hash) && count == |es|
      && (es == [] ==> minKey.None? && maxKey.None? && lastKey.None?)
      && (es != [] ==> minKey == Some(es[0].key) && maxKey == lastKey == Some(es[|es| - 1].key));
    known
  }

  lemma OneMore(file: Bytes, blocks: seq<BlockMeta>, chunks: seq<seq<Ver>>, crc: Bytes -> nat, offset: nat,
                open: seq<Ver>, block: Bytes, x: Ver)
    requires Fits(x) && Writing(file, blocks, chunks, crc, offset, open, block, if open == [] then None else Some(open[0].key))
    ensures Writing(file, blocks, chunks, crc, offset, open + [x], block + EncodeEntry(x), Some(if open == [] then x.key else open[0].key))
    ensures Flat(chunks) + (open + [x]) == (Flat(chunks) + open) + [x]
  {
    EncodeOneMore(open, x);
  }

  ghost predicate HashesOk(es: seq<Ver>, hashes: seq<Bloom.u64>, hash: Bytes -> Bloom.u64) {
    forall x :: x in es ==> hash(x.key) in hashes
  }

  lemma HashAdded(es: seq<Ver>, hashes: seq<Bloom.u64>, hash: Bytes -> Bloom.u64, x: Ver)
    requires HashesOk(es, hashes, hash)
    ensures HashesOk(es + [x], hashes + [hash(x.key)], hash)
  {}

  lemma HashKept(es: seq<Ver>, hashes: seq<Bloom.u64>, hash: Bytes -> Bloom.u64, x: Ver)
    requires HashesOk(es, hashes, hash) && es != [] && es[|es| - 1].key == x.key
    ensures HashesOk(es + [x], hashes, hash)
  {
    assert es[|es| - 1] in es;
  }

  lemma FilterFrom(f: Bloom.BloomFilter, es: seq<Ver>, hashes: seq<Bloom.u64>, hash: Bytes -> Bloom.u64)
    requires f.Ok() && HashesOk(es, hashes, hash) && forall h :: h in hashes ==> f.HasHash(h)
    ensures FilterOk(f, es, hash)
  {}

  lemma AddedKept(chunks: seq<seq<Ver>>, open: seq<Ver>)
    ensures Flat(chunks + [open]) + [] == Flat(chunks) + open == Flat(chunks + [open])
  {
    assert (chunks + [open])[..|chunks|] == chunks;
  }

  lemma EncodeOneMore(open: seq<Ver>, x: Ver)
    ensures EncodeBlock(open + [x]) == EncodeBlock(open) + EncodeEntry(x)
  {
    assert Encodings(open + [x]) == Encodings(open) + [EncodeEntry(x)];
    JoinLast(Encodings(open), EncodeEntry(x));
  }

  lemma JoinLast(parts: seq<Bytes>, p: Bytes)
    ensures Join(parts + [p]) == Join(parts) + p
  {
    assert (parts + [p])[..|parts|] == parts;
  }

  lemma EmptyBlock(es: seq<Ver>)
    requires EncodeBlock(es) == []
    ensures es == []
  {
    if es != [] { PartAt(Encodings(es), 0); }
  }

  lemma BlockClosed(file: Bytes, blocks: seq<BlockMeta>, chunks: seq<seq<Ver>>, crc: Bytes -> nat, offset: nat,
                    open: seq<Ver>, block: Bytes, firstKey: Option<Bytes>)
    requires Writing(file, blocks, chunks, crc, offset, open, block, firstKey) && block != []
    ensures open != [] && firstKey == Some(open[0].key)
    ensures Writing(file + block, blocks + [BlockMeta(firstKey.value, offset, |block|, crc(block))], chunks + [open], crc,
                    offset + |block|, [], [], None)
  {
    BlockAppended(file, blocks, chunks, crc, open);
  }

  lemma BlockAppended(file: Bytes, blocks: seq<BlockMeta>, chunks: seq<seq<Ver>>, crc: Bytes -> nat, open: seq<Ver>)
    requires BlocksOk(file, blocks, chunks, crc) && open != [] && AllFit(open)
    ensures var block := EncodeBlock(open);
            BlocksOk(file + block, blocks + [BlockMeta(open[0].key, |file|, |block|, crc(block))], chunks + [open], crc)
  {
    var block, n := EncodeBlock(open), |chunks|;
    var all := chunks + [open];
    FilesLast(chunks, open);
    JoinLast(Files(chunks), block);
    var metas := blocks + [BlockMeta(open[0].key, |file|, |block|, crc(block))];
    forall i | 0 <= i < n + 1 ensures MetaOk(metas[i], all, i, crc) {
      if i < n {
        assert MetaOk(blocks[i], chunks, i, crc);
        assert Files(all)[..i] == Files(chunks)[..i];
      } else {
        assert Files(all)[..n] == Files(chunks);
      }
    }
    assert forall i :: 0 <= i < |all| ==> AllFit(all[i]);
  }

  lemma FilesLast(chunks: seq<seq<Ver>>, open: seq<Ver>)
    ensures Files(chunks + [open]) == Files(chunks) + [EncodeBlock(open)]
  {}
}
