/** Raft durability on the storage engine (crates/server/src/logstore.rs).

    The store keeps hard state, snapshot and log entries under keys of one database.  Its meaning is a
    `Persisted` value, changed exactly as the simulator's disk is. */
module LogStore {
  import opened Prelude
  import opened Codec
  import opened LsmSpec
  import opened LsmOrder
  import opened LsmScan
  import opened LsmDb
  import LsmState
  import opened RaftTypes
  import opened RaftDisk
  import RaftHost

  // ------------------------------------------------------------- keys

  const KEY_HS: Bytes := [109, 47, 104, 115]
  const KEY_SNAP: Bytes := [109, 47, 115, 110, 97, 112]
  const ENTRY_PREFIX: Bytes := [101, 47]
  const ENTRY_END: Bytes := [101, 48]
  const MAX_INDEX: nat := 0xFFFF_FFFF_FFFF_FFFF

  function EntryKey(i: nat): Bytes { ENTRY_PREFIX + Be(i, 8) }

  lemma {:induction false} LessExtends(a: Bytes, b: Bytes, x: Bytes, y: Bytes)
    requires Less(a, b) && |a| == |b|
    ensures Less(a + x, b + y)
    decreases |a|
  {
    if a[0] == b[0] {
      LessExtends(a[1..], b[1..], x, y);
      assert (a + x)[1..] == a[1..] + x && (b + y)[1..] == b[1..] + y;
    }
  }

  lemma {:induction false} LessAfter(p: Bytes, a: Bytes, b: Bytes)
    ensures Less(p + a, p + b) <==> Less(a, b)
    decreases |p|
  {
    if p == [] {
      assert p + a == a && p + b == b;
    } else {
      LessAfter(p[1..], a, b);
      assert (p + a)[1..] == p[1..] + a && (p + b)[1..] == p[1..] + b;
    }
  }

  /** Big-endian bytes of the same width order like the numbers. */
  lemma {:induction false} BeOrder(i: nat, j: nat, w: nat)
    requires i < j < Pow256(w)
    ensures Less(Be(i, w), Be(j, w))
  {
    var a, b := i / 256, j / 256;
    if a < b {
      DivBelow(j, Pow256(w - 1));
      BeOrder(a, b, w - 1);
      LessExtends(Be(a, w - 1), Be(b, w - 1), [(i % 256) as byte], [(j % 256) as byte]);
    } else {
      assert a == b;
      LessAfter(Be(a, w - 1), [(i % 256) as byte], [(j % 256) as byte]);
    }
  }

  lemma DivBelow(n: nat, p: nat)
    requires n < 256 * p
    ensures n / 256 < p
  {}

  lemma KeyOrder(i: nat, j: nat)
    requires i <= MAX_INDEX && j <= MAX_INDEX
    ensures Less(EntryKey(i), EntryKey(j)) <==> i < j
    ensures EntryKey(i) == EntryKey(j) <==> i == j
  {
    PowerValues();
    LessAfter(ENTRY_PREFIX, Be(i, 8), Be(j, 8));
    if i < j {
      BeOrder(i, j, 8);
      LessAsymmetric(EntryKey(i), EntryKey(j));
    } else if j < i {
      BeOrder(j, i, 8);
      LessAfter(ENTRY_PREFIX, Be(j, 8), Be(i, 8));
      LessAsymmetric(EntryKey(j), EntryKey(i));
    } else {
      LessIrreflexive(EntryKey(i));
    }
  }

  /** The scan range holds the entry keys and neither of the two other keys. */
  lemma KeyRanges(i: nat)
    ensures InRange(EntryKey(i), ENTRY_PREFIX, Some(ENTRY_END))
    ensures !InRange(KEY_HS, ENTRY_PREFIX, Some(ENTRY_END)) && !InRange(KEY_SNAP, ENTRY_PREFIX, Some(ENTRY_END))
    ensures KEY_HS != KEY_SNAP && EntryKey(i) != KEY_HS && EntryKey(i) != KEY_SNAP
  {
    var k := EntryKey(i);
    assert k[0] == 101 && k[1] == 47;
    assert k[1..][0] == 47 && ENTRY_END[1..] == [48] && ENTRY_PREFIX[1..] == [47];
    LessAfter(ENTRY_PREFIX, Be(i, 8), []);
    assert ENTRY_PREFIX + [] == ENTRY_PREFIX;
    assert KEY_HS[0] == 109 && KEY_SNAP[0] == 109 && ENTRY_END[0] == 101;
  }

  // ------------------------------------------------------------- what the database holds

  /** The present value of a key. */
  function Cur(w: seq<Op>, k: Bytes): Option<Bytes> { Newest(w, k, |w|) }

  lemma {:induction false} CurAfter(w: seq<Op>, ops: seq<Op>, k: Bytes)
    ensures Cur(w + ops, k) == var o := LastOp(ops, k); if o.Some? then o.value else Cur(w, k)
    decreases |ops|
  {
    if ops == [] {
      assert w + ops == w;
    } else {
      var n := |ops| - 1;
      CurAfter(w, ops[..n], k);
      assert w + ops == (w + ops[..n]) + [ops[n]];
      NewestIdxAppend(w + ops[..n], ops[n], k, |w| + |ops|);
      NewestIdxBeyond(w + ops[..n], k);
    }
  }

  lemma NewestIdxBeyond(w: seq<Op>, k: Bytes)
    ensures NewestIdx(w, k, |w| + 1) == NewestIdx(w, k, |w|)
  {}

  /** What a batch leaves at a key: the last operation on it wins. */
  function LastOp(ops: seq<Op>, k: Bytes): Option<Option<Bytes>> {
    if ops == [] then None
    else if ops[|ops| - 1].key == k then Some(ops[|ops| - 1].value)
    else LastOp(ops[..|ops| - 1], k)
  }

  lemma {:induction false} LastOpConcat(a: seq<Op>, b: seq<Op>, k: Bytes)
    ensures LastOp(a + b, k) == if LastOp(b, k).Some? then LastOp(b, k) else LastOp(a, k)
    decreases |b|
  {
    if b == [] {
      assert a + b == a;
    } else {
      var n := |b| - 1;
      LastOpConcat(a, b[..n], k);
      assert (a + b)[..|a| + n] == a + b[..n];
    }
  }

  // ------------------------------------------------------------- operations on ranges of entries

  /** Serializers of the three kinds of values, with their inverses. */
  datatype Serde = Serde(hs: HardState -> Bytes, unHs: Bytes -> Option<HardState>,
                         snap: Snapshot -> Bytes, unSnap: Bytes -> Option<Snapshot>,
                         entry: Entry -> Bytes, unEntry: Bytes -> Option<Entry>)

  ghost predicate Inverse(f: Serde) {
    && (forall x :: f.unHs(f.hs(x)) == Some(x))
    && (forall x :: f.unSnap(f.snap(x)) == Some(x))
    && (forall x :: f.unEntry(f.entry(x)) == Some(x))
  }

  function Deletes(a: nat, b: nat): seq<Op>
    decreases b
  {
    if b <= a then [] else Deletes(a, b - 1) + [Op(EntryKey(b - 1), None)]
  }

  function Puts(f: Serde, es: seq<Entry>): seq<Op> {
    if es == [] then []
    else Puts(f, es[..|es| - 1]) + [Op(EntryKey(es[|es| - 1].index), Some(f.entry(es[|es| - 1])))]
  }

  lemma LastOpThen(ops: seq<Op>, o: Op, k: Bytes)
    ensures LastOp(ops + [o], k) == if o.key == k then Some(o.value) else LastOp(ops, k)
  {
    assert (ops + [o])[..|ops|] == ops;
  }

  lemma SameEntryKey(i: nat, j: nat)
    requires i <= MAX_INDEX && j <= MAX_INDEX
    ensures EntryKey(i) == EntryKey(j) <==> i == j
  {
    KeyOrder(i, j);
  }

  lemma {:induction false} DeletesLast(a: nat, b: nat, i: nat)
    requires b <= MAX_INDEX + 1 && i <= MAX_INDEX
    ensures LastOp(Deletes(a, b), EntryKey(i)) == if a <= i < b then Some(None) else None
    decreases b
  {
    if b > a {
      DeletesLast(a, b - 1, i);
      SameEntryKey(b - 1, i);
      LastOpThen(Deletes(a, b - 1), Op(EntryKey(b - 1), None), EntryKey(i));
    }
  }

  lemma {:induction false} DeletesOnly(a: nat, b: nat, k: Bytes)
    requires forall i: nat :: k != EntryKey(i)
    ensures LastOp(Deletes(a, b), k) == None
    decreases b
  {
    if b > a {
      DeletesOnly(a, b - 1, k);
      var d := Deletes(a, b);
      assert d[..|d| - 1] == Deletes(a, b - 1);
    }
  }

  ghost predicate Consecutive(es: seq<Entry>) {
    es != [] ==> 0 < es[0].index && es[0].index + |es| - 1 <= MAX_INDEX && Contiguous(es, es[0].index - 1)
  }

  function EntryAt(es: seq<Entry>, i: nat): Option<Entry> {
    if es != [] && es[0].index <= i < es[0].index + |es| then Some(es[i - es[0].index]) else None
  }

  lemma {:induction false} PutsLast(f: Serde, es: seq<Entry>, i: nat)
    requires Consecutive(es) && i <= MAX_INDEX
    ensures LastOp(Puts(f, es), EntryKey(i)) ==
            if EntryAt(es, i).Some? then Some(Some(f.entry(EntryAt(es, i).value))) else None
    decreases |es|
  {
    if es != [] {
      var n := |es| - 1;
      var init := es[..n];
      PutsLast(f, init, i);
      SameEntryKey(es[n].index, i);
      LastOpThen(Puts(f, init), Op(EntryKey(es[n].index), Some(f.entry(es[n]))), EntryKey(i));
    }
  }

  lemma {:induction false} PutsOnly(f: Serde, es: seq<Entry>, k: Bytes)
    requires forall i: nat :: k != EntryKey(i)
    ensures LastOp(Puts(f, es), k) == None
    decreases |es|
  {
    if es != [] {
      PutsOnly(f, es[..|es| - 1], k);
      var p := Puts(f, es);
      assert p[..|p| - 1] == Puts(f, es[..|es| - 1]);
    }
  }

  // ------------------------------------------------------------- the meaning of the store

  const FRESH: HardState := HardState(0, None)

  /** Every key ever written is one of the store's own. */
  ghost predicate OwnKey(k: Bytes) { k == KEY_HS || k == KEY_SNAP || exists i: nat :: i <= MAX_INDEX && k == EntryKey(i) }

  ghost predicate OwnKeys(w: seq<Op>) { forall i :: 0 <= i < |w| ==> OwnKey(w[i].key) }

  ghost predicate HoldsMeta(w: seq<Op>, f: Serde, m: Persisted) {
    && (Cur(w, KEY_HS) == Some(f.hs(m.hardState)) || (Cur(w, KEY_HS) == None && m.hardState == FRESH))
    && Cur(w, KEY_SNAP) == (if m.snapshot.None? then None else Some(f.snap(m.snapshot.value)))
  }

  ghost predicate HoldsEntries(w: seq<Op>, f: Serde, es: seq<Entry>) {
    && Consecutive(es)
    && forall i: nat :: i <= MAX_INDEX ==>
         Cur(w, EntryKey(i)) == if EntryAt(es, i).None? then None else Some(f.entry(EntryAt(es, i).value))
  }

  /** The database holds the persisted state `m`. */
  ghost predicate Holds(w: seq<Op>, f: Serde, m: Persisted) {
    OwnKeys(w) && HoldsMeta(w, f, m) && HoldsEntries(w, f, m.entries)
  }

  /** A database without writes holds the state of a node that never ran. */
  lemma NewStore(f: Serde)
    ensures Holds([], f, RaftHost.BLANK)
  {}

  /** The operations of one `persist` call. */
  function MetaOps(f: Serde, hs: Option<HardState>, snap: Option<Snapshot>): seq<Op> {
    (if hs.Some? then [Op(KEY_HS, Some(f.hs(hs.value)))] else []) +
    (if snap.Some? then [Op(KEY_SNAP, Some(f.snap(snap.value)))] else [])
  }

  /** Entries replaced: those from `first` to `last` deleted, then `append` written. */
  ghost predicate Replaces(es: seq<Entry>, first: nat, last: nat, append: seq<Entry>, es2: seq<Entry>) {
    && Consecutive(es2)
    && forall i: nat :: i <= MAX_INDEX ==>
         EntryAt(es2, i) == if EntryAt(append, i).Some? then EntryAt(append, i)
                            else if first <= i <= last then None else EntryAt(es, i)
  }

  lemma LastOfOne(o: Op, k: Bytes)
    ensures LastOp([o], k) == if o.key == k then Some(o.value) else None
  {
    assert [o][..0] == [];
  }

  lemma MetaOpsLast(f: Serde, hs: Option<HardState>, snap: Option<Snapshot>, k: Bytes)
    ensures LastOp(MetaOps(f, hs, snap), k) ==
            if k == KEY_SNAP && snap.Some? then Some(Some(f.snap(snap.value)))
            else if k == KEY_HS && hs.Some? then Some(Some(f.hs(hs.value))) else None
  {
    var a := if hs.Some? then [Op(KEY_HS, Some(f.hs(hs.value)))] else [];
    var b := if snap.Some? then [Op(KEY_SNAP, Some(f.snap(snap.value)))] else [];
    LastOpConcat(a, b, k);
    if hs.Some? { LastOfOne(a[0], k); }
    if snap.Some? { LastOfOne(b[0], k); }
  }

  lemma BatchCur(w: seq<Op>, meta: seq<Op>, dels: seq<Op>, puts: seq<Op>, k: Bytes)
    ensures Cur(w + (meta + dels + puts), k) ==
            if LastOp(puts, k).Some? then LastOp(puts, k).value
            else if LastOp(dels, k).Some? then LastOp(dels, k).value
            else if LastOp(meta, k).Some? then LastOp(meta, k).value else Cur(w, k)
  {
    CurAfter(w, meta + dels + puts, k);
    LastOpConcat(meta + dels, puts, k);
    LastOpConcat(meta, dels, k);
  }

  function BatchOps(f: Serde, hs: Option<HardState>, snap: Option<Snapshot>, first: nat, last: nat, append: seq<Entry>): seq<Op> {
    MetaOps(f, hs, snap) + Deletes(first, last + 1) + Puts(f, append)
  }

  lemma BatchMeta(w: seq<Op>, f: Serde, hs: Option<HardState>, snap: Option<Snapshot>, first: nat, last: nat, append: seq<Entry>, k: Bytes)
    requires k == KEY_HS || k == KEY_SNAP
    ensures Cur(w + BatchOps(f, hs, snap, first, last, append), k) ==
            if k == KEY_SNAP && snap.Some? then Some(f.snap(snap.value))
            else if k == KEY_HS && hs.Some? then Some(f.hs(hs.value)) else Cur(w, k)
  {
    forall i: nat ensures k != EntryKey(i) { KeyRanges(i); }
    DeletesOnly(first, last + 1, k);
    PutsOnly(f, append, k);
    MetaOpsLast(f, hs, snap, k);
    BatchCur(w, MetaOps(f, hs, snap), Deletes(first, last + 1), Puts(f, append), k);
  }

  lemma BatchEntry(w: seq<Op>, f: Serde, hs: Option<HardState>, snap: Option<Snapshot>, first: nat, last: nat, append: seq<Entry>, i: nat)
    requires last <= MAX_INDEX && Consecutive(append) && i <= MAX_INDEX
    ensures Cur(w + BatchOps(f, hs, snap, first, last, append), EntryKey(i)) ==
            if EntryAt(append, i).Some? then Some(f.entry(EntryAt(append, i).value))
            else if first <= i <= last then None else Cur(w, EntryKey(i))
  {
    KeyRanges(i);
    MetaOpsLast(f, hs, snap, EntryKey(i));
    DeletesLast(first, last + 1, i);
    PutsLast(f, append, i);
    BatchCur(w, MetaOps(f, hs, snap), Deletes(first, last + 1), Puts(f, append), EntryKey(i));
  }

  /** A batch of metadata, deletions and puts changes the meaning as the call intends. */
  lemma BatchHolds(w: seq<Op>, f: Serde, m: Persisted, hs: Option<HardState>, snap: Option<Snapshot>,
                   first: nat, last: nat, append: seq<Entry>, es2: seq<Entry>)
    requires Holds(w, f, m) && last <= MAX_INDEX && Consecutive(append) && Replaces(m.entries, first, last, append, es2)
    ensures Holds(w + BatchOps(f, hs, snap, first, last, append), f,
                  Persisted(if hs.Some? then hs.value else m.hardState, es2, if snap.Some? then snap else m.snapshot))
  {
    BatchKeys(w, f, hs, snap, first, last, append);
    BatchMeta(w, f, hs, snap, first, last, append, KEY_HS);
    BatchMeta(w, f, hs, snap, first, last, append, KEY_SNAP);
    forall i: nat | i <= MAX_INDEX
      ensures Cur(w + BatchOps(f, hs, snap, first, last, append), EntryKey(i)) ==
              if EntryAt(es2, i).None? then None else Some(f.entry(EntryAt(es2, i).value))
    {
      BatchEntry(w, f, hs, snap, first, last, append, i);
    }
  }

  lemma {:induction false} DeletesOwn(a: nat, b: nat)
    requires b <= MAX_INDEX + 1
    ensures OwnKeys(Deletes(a, b))
    decreases b
  {
    if b > a { DeletesOwn(a, b - 1); }
  }

  lemma {:induction false} PutsOwn(f: Serde, es: seq<Entry>)
    requires forall i :: 0 <= i < |es| ==> es[i].index <= MAX_INDEX
    ensures OwnKeys(Puts(f, es))
    decreases |es|
  {
    if es != [] { PutsOwn(f, es[..|es| - 1]); }
  }

  lemma BatchKeys(w: seq<Op>, f: Serde, hs: Option<HardState>, snap: Option<Snapshot>, first: nat, last: nat, append: seq<Entry>)
    requires OwnKeys(w) && last <= MAX_INDEX && Consecutive(append)
    ensures OwnKeys(w + BatchOps(f, hs, snap, first, last, append))
  {
    DeletesOwn(first, last + 1);
    PutsOwn(f, append);
    OwnConcat(MetaOps(f, hs, snap), Deletes(first, last + 1));
    OwnConcat(MetaOps(f, hs, snap) + Deletes(first, last + 1), Puts(f, append));
    OwnConcat(w, BatchOps(f, hs, snap, first, last, append));
  }

  lemma OwnConcat(a: seq<Op>, b: seq<Op>)
    requires OwnKeys(a) && OwnKeys(b)
    ensures OwnKeys(a + b)
  {}

  // ------------------------------------------------------------- reading the log back

  lemma LiveKeyWritten(w: seq<Op>, k: Bytes)
    requires OwnKeys(w) && Cur(w, k).Some?
    ensures OwnKey(k)
  {
    var n := NewestIdx(w, k, |w|);
    assert w[n - 1].key == k;
  }

  /** A pair of the scan is an entry of the log. */
  lemma ScannedEntry(w: seq<Op>, f: Serde, es: seq<Entry>, out: seq<(Bytes, Bytes)>, j: nat) returns (i: nat)
    requires OwnKeys(w) && HoldsEntries(w, f, es) && j < |out|
    requires ScansRight(w, ENTRY_PREFIX, Some(ENTRY_END), MAX_INDEX, |w|, out)
    ensures i <= MAX_INDEX && EntryAt(es, i).Some? && out[j] == (EntryKey(i), f.entry(EntryAt(es, i).value))
  {
    var k := out[j].0;
    assert InRange(k, ENTRY_PREFIX, Some(ENTRY_END)) && Cur(w, k) == Some(out[j].1);
    LiveKeyWritten(w, k);
    KeyRanges(0);
    i :| i <= MAX_INDEX && k == EntryKey(i);
  }

  ghost predicate Indexes(f: Serde, es: seq<Entry>, out: seq<(Bytes, Bytes)>, idx: seq<nat>) {
    && |idx| <= |out|
    && forall j :: 0 <= j < |idx| ==>
         idx[j] <= MAX_INDEX && EntryAt(es, idx[j]).Some? && out[j] == (EntryKey(idx[j]), f.entry(EntryAt(es, idx[j]).value))
  }

  lemma OneIndexMore(f: Serde, es: seq<Entry>, out: seq<(Bytes, Bytes)>, idx: seq<nat>, i: nat)
    requires Indexes(f, es, out, idx) && |idx| < |out|
    requires i <= MAX_INDEX && EntryAt(es, i).Some? && out[|idx|] == (EntryKey(i), f.entry(EntryAt(es, i).value))
    ensures Indexes(f, es, out, idx + [i])
  {}

  /** The log indexes of the scanned pairs. */
  lemma {:induction false} ScannedIndexes(w: seq<Op>, f: Serde, es: seq<Entry>, out: seq<(Bytes, Bytes)>, n: nat) returns (idx: seq<nat>)
    requires OwnKeys(w) && HoldsEntries(w, f, es) && n <= |out|
    requires ScansRight(w, ENTRY_PREFIX, Some(ENTRY_END), MAX_INDEX, |w|, out)
    ensures |idx| == n && Indexes(f, es, out, idx)
    decreases n
  {
    idx := [];
    if n > 0 {
      var init := ScannedIndexes(w, f, es, out, n - 1);
      var i := ScannedEntry(w, f, es, out, n - 1);
      OneIndexMore(f, es, out, init, i);
      idx := init + [i];
    }
  }

  ghost predicate Rising(idx: seq<nat>) { forall a, b :: 0 <= a < b < |idx| ==> idx[a] < idx[b] }

  lemma IndexesRise(f: Serde, es: seq<Entry>, out: seq<(Bytes, Bytes)>, idx: seq<nat>)
    requires Indexes(f, es, out, idx) && forall a, b :: 0 <= a < b < |out| ==> Less(out[a].0, out[b].0)
    ensures Rising(idx)
  {
    forall a, b | 0 <= a < b < |idx| ensures idx[a] < idx[b] {
      assert Less(out[a].0, out[b].0);
      KeyOrder(idx[a], idx[b]);
    }
  }

  /** An entry of the log is among the scanned ones, unless the limit stopped the scan before it. */
  lemma EntryScanned(w: seq<Op>, f: Serde, es: seq<Entry>, out: seq<(Bytes, Bytes)>, idx: seq<nat>, i: nat)
    requires HoldsEntries(w, f, es) && ScansRight(w, ENTRY_PREFIX, Some(ENTRY_END), MAX_INDEX, |w|, out)
    requires Indexes(f, es, out, idx) && |idx| == |out| && i <= MAX_INDEX && EntryAt(es, i).Some?
    ensures i in idx || (|idx| == MAX_INDEX && idx[|idx| - 1] < i)
  {
    var k := EntryKey(i);
    KeyRanges(i);
    assert Cur(w, k) == Some(f.entry(EntryAt(es, i).value));
    if (k, f.entry(EntryAt(es, i).value)) in out {
      var p :| 0 <= p < |out| && out[p] == (k, f.entry(EntryAt(es, i).value));
      KeyOrder(i, idx[p]);
      assert idx[p] == i;
    } else {
      KeyOrder(idx[|idx| - 1], i);
    }
  }

  /** Rising indexes from `first` that miss nothing are consecutive. */
  lemma {:induction false} RisingIsRun(idx: seq<nat>, first: nat, n: nat, j: nat)
    requires Rising(idx) && j < |idx| && (forall a :: 0 <= a < |idx| ==> first <= idx[a] < first + n)
    requires forall i: nat :: first <= i < first + n ==> i in idx
    ensures j < n && idx[j] == first + j
    decreases j
  {
    if j > 0 { RisingIsRun(idx, first, n, j - 1); }
    assert first + j <= idx[j] < first + n;
    assert first + j in idx;
    var p :| 0 <= p < |idx| && idx[p] == first + j;
  }

  lemma {:induction false} RisingHigh(idx: seq<nat>, j: nat)
    requires Rising(idx) && j < |idx| && idx[0] > 0
    ensures idx[j] > j
    decreases j
  {
    if j > 0 { RisingHigh(idx, j - 1); }
  }

  /** The scan yields the log in index order. */
  lemma ScanIsLog(w: seq<Op>, f: Serde, es: seq<Entry>, out: seq<(Bytes, Bytes)>)
    requires OwnKeys(w) && HoldsEntries(w, f, es)
    requires ScansRight(w, ENTRY_PREFIX, Some(ENTRY_END), MAX_INDEX, |w|, out)
    ensures |out| == |es| && forall j :: 0 <= j < |out| ==> out[j].1 == f.entry(es[j])
  {
    var idx := ScannedIndexes(w, f, es, out, |out|);
    IndexesRise(f, es, out, idx);
    var first := if es == [] then 0 else es[0].index;
    forall i: nat | first <= i < first + |es| ensures i in idx {
      EntryScanned(w, f, es, out, idx, i);
      if i !in idx { RisingHigh(idx, |idx| - 1); }
    }
    IndexesAre(f, es, out, idx, first);
  }

  lemma IndexesAre(f: Serde, es: seq<Entry>, out: seq<(Bytes, Bytes)>, idx: seq<nat>, first: nat)
    requires Indexes(f, es, out, idx) && |idx| == |out| && Rising(idx) && first == (if es == [] then 0 else es[0].index)
    requires forall i: nat :: first <= i < first + |es| ==> i in idx
    ensures |out| == |es| && forall j :: 0 <= j < |out| ==> out[j].1 == f.entry(es[j])
  {
    forall j | 0 <= j < |idx| ensures j < |es| && idx[j] == first + j { RisingIsRun(idx, first, |es|, j); }
    if |idx| > 0 { assert idx[|idx| - 1] == first + |idx| - 1; }
    assert first + |idx| !in idx;
  }

  // ------------------------------------------------------------- truncate, then append

  /** The entries below `i`. */
  function KeptBelow(es: seq<Entry>, i: nat): seq<Entry>
    requires es != [] ==> i <= es[0].index + |es|
  {
    if es == [] || i < es[0].index then [] else es[..i - es[0].index]
  }

  lemma StoreOver(append: seq<Entry>, k: nat)
    requires append != [] && Contiguous(append, k)
    ensures RaftHost.StoreEntries([] + [append[0]], append[1..]) == append
  {
    var e, rest := append[0], append[1..];
    assert append == [e] + rest && [] + [e] == [e];
    if rest != [] {
      StoreBatch([e], k, rest, k + 1);
      assert [e][..1] == [e];
    }
  }

  lemma StoreIs(es: seq<Entry>, append: seq<Entry>)
    requires Consecutive(es) && Consecutive(append) && append != [] && (es != [] ==> append[0].index <= es[0].index + |es|)
    ensures RaftHost.StoreEntries(es, append) == KeptBelow(es, append[0].index) + append
  {
    var k := append[0].index - 1;
    if es == [] {
      StoreBatch([], k, append, k);
    } else if append[0].index >= es[0].index {
      StoreBatch(es, es[0].index - 1, append, k);
    } else {
      assert RaftHost.DropFrom(es, append[0].index) == [];
      StoreOver(append, k);
    }
  }

  lemma StoreBounds(es: seq<Entry>, append: seq<Entry>)
    requires Consecutive(es) && Consecutive(append) && (append != [] && es != [] ==> append[0].index <= es[0].index + |es|)
    ensures var r := RaftHost.StoreEntries(es, append);
            if append == [] then r == es
            else r != [] && r[0].index == (if es == [] then append[0].index else Min(es[0].index, append[0].index))
                 && r[0].index + |r| == append[0].index + |append|
  {
    if append != [] { StoreIs(es, append); }
  }

  /** The range of stored entries a `persist` call removes; nothing is written as 1 to 0. */
  predicate DeletesFor(es: seq<Entry>, append: seq<Entry>, snap: bool, first: nat, last: nat) {
    if snap && es != [] then first == es[0].index && last == es[0].index + |es| - 1
    else if append != [] && !snap && es != [] && append[0].index < es[0].index + |es|
    then first == append[0].index && last == es[0].index + |es| - 1
    else first == 1 && last == 0
  }

  /** What the store remembers of the entries: first and last index, both 0 when there are none. */
  predicate BoundsOf(es: seq<Entry>, first: nat, last: nat) {
    if es == [] then first == 0 && last == 0 else first == es[0].index && last == first + |es| - 1
  }

  lemma PersistReplaces(es: seq<Entry>, append: seq<Entry>, snap: bool, first: nat, last: nat, es2: seq<Entry>)
    requires Consecutive(es) && Consecutive(append) && es2 == RaftHost.StoreEntries(if snap then [] else es, append)
    requires append != [] && !snap && es != [] ==> append[0].index <= es[0].index + |es|
    requires DeletesFor(es, append, snap, first, last)
    ensures Replaces(es, first, last, append, es2)
  {
    if append != [] {
      var kept := if snap then [] else es;
      StoreIs(kept, append);
      forall i: nat | i <= MAX_INDEX ensures EntryAt(es2, i) ==
        if EntryAt(append, i).Some? then EntryAt(append, i) else if first <= i <= last then None else EntryAt(es, i)
      {
        KeptAppendAt(kept, append, i);
      }
      KeptAppendAt(kept, append, 0);
    }
  }

  lemma KeptAppendAt(es: seq<Entry>, append: seq<Entry>, i: nat)
    requires Consecutive(es) && Consecutive(append) && append != [] && (es != [] ==> append[0].index <= es[0].index + |es|)
    ensures var r := KeptBelow(es, append[0].index) + append;
            && Consecutive(r)
            && EntryAt(r, i) == if EntryAt(append, i).Some? then EntryAt(append, i) else if i < append[0].index then EntryAt(es, i) else None
  {
    var k := KeptBelow(es, append[0].index);
    var r := k + append;
    forall j | 0 <= j < |r| ensures r[j].index == r[0].index + j {
      if j < |k| { assert r[j] == es[j] && r[0] == es[0]; }
    }
  }

  lemma AboveReplaces(es: seq<Entry>, idx: nat, first: nat, last: nat)
    requires Consecutive(es)
    requires if es != [] && es[0].index <= idx then first == es[0].index && last == Min(idx, es[0].index + |es| - 1)
             else first == 1 && last == 0
    ensures Replaces(es, first, last, [], RaftHost.Above(es, idx))
  {
    if es != [] {
      var base := es[0].index - 1;
      if idx <= base {
        AboveAll(es, base, idx);
      } else if idx <= base + |es| {
        AboveContiguous(es, base, idx);
      } else {
        AboveNone(es, base, idx);
      }
    }
  }

  lemma {:induction false} AboveNone(es: seq<Entry>, base: nat, idx: nat)
    requires Contiguous(es, base) && idx >= base + |es|
    ensures RaftHost.Above(es, idx) == []
    decreases |es|
  {
    if es != [] { AboveNone(es[1..], base + 1, idx); }
  }

  // ------------------------------------------------------------- the store

  method DeleteRange(ops: seq<Op>, a: nat, b: nat) returns (r: seq<Op>)
    requires a <= b + 1
    ensures r == ops + Deletes(a, b + 1)
  {
    r := ops;
    assert Deletes(a, a) == [] && ops + [] == ops;
    for i := a to b + 1
      invariant r == ops + Deletes(a, i)
    {
      r := r + [Op(EntryKey(i), None)];
    }
  }

  method PutAll(ops: seq<Op>, f: Serde, es: seq<Entry>) returns (r: seq<Op>)
    ensures r == ops + Puts(f, es)
  {
    r := ops;
    assert Puts(f, es[..0]) == [];
    for i := 0 to |es|
      invariant r == ops + Puts(f, es[..i])
    {
      assert es[..i + 1][..i] == es[..i];
      r := r + [Op(EntryKey(es[i].index), Some(f.entry(es[i])))];
    }
    assert es[..|es|] == es;
  }

  /** Decodes scanned values; nothing when one is corrupt. */
  method DecodeAll(f: Serde, out: seq<(Bytes, Bytes)>) returns (es: Option<seq<Entry>>)
    ensures es.Some? ==> |es.value| == |out| && forall j :: 0 <= j < |out| ==> f.unEntry(out[j].1) == Some(es.value[j])
    ensures es.None? ==> exists j :: 0 <= j < |out| && f.unEntry(out[j].1) == None
  {
    var r: seq<Entry> := [];
    for j := 0 to |out|
      invariant |r| == j && forall i :: 0 <= i < j ==> f.unEntry(out[i].1) == Some(r[i])
    {
      var e := f.unEntry(out[j].1);
      if e.None? { return None; }
      r := r + [e.value];
    }
    es := Some(r);
  }

  /** Opening reads back exactly the state that the database holds. */
  method Open(db: Db, f: Serde, ghost m: Persisted) returns (p: Option<Persisted>)
    requires db.Valid() && Inverse(f) && Holds(db.writes, f, m)
    ensures p == Some(m)
  {
    p := None;
    var hs, snap, ok := ReadMeta(db, f, m);
    var out := db.ScanAt(ENTRY_PREFIX, Some(ENTRY_END), MAX_INDEX, db.last);
    ScanIsLog(db.writes, f, m.entries, out);
    var es := DecodeAll(f, out);
    assert forall j :: 0 <= j < |out| ==> f.unEntry(out[j].1) == Some(m.entries[j]);
    if ok && es.Some? {
      assert es.value == m.entries;
      p := Some(Persisted(hs, es.value, snap));
    }
  }

  method ReadMeta(db: Db, f: Serde, ghost m: Persisted) returns (hs: HardState, snap: Option<Snapshot>, ok: bool)
    requires db.Valid() && Inverse(f) && HoldsMeta(db.writes, f, m)
    ensures ok && hs == m.hardState && snap == m.snapshot
  {
    hs, snap, ok := FRESH, None, true;
    var b := db.GetAt(KEY_HS, db.last);
    if b.Some? {
      var d := f.unHs(b.value);
      if d.None? { ok := false; } else { hs := d.value; }
    }
    b := db.GetAt(KEY_SNAP, db.last);
    if b.Some? {
      snap := f.unSnap(b.value);
      ok := ok && snap.Some?;
    }
  }

  /** A crash during the call: the disk as it was recovers to the old history, every later one to the new. */
  ghost predicate CrashSafe(d: LsmState.Disk, w: seq<Op>, before: seq<LsmState.Disk>, after: seq<LsmState.Disk>, w2: seq<Op>, size: seq<Ver> -> nat) {
    && LsmState.RecoversTo(d, w, size) && before <= after
    && forall i :: |before| <= i < |after| ==> LsmState.RecoversTo(after[i], w2, size)
  }

  class Store {
    const db: Db
    const ser: Serde
    var firstIndex: nat
    var lastIndex: nat
    ghost var model: Persisted

    ghost predicate Bounds()
      reads this
    {
      BoundsOf(model.entries, firstIndex, lastIndex)
    }

    ghost predicate Valid()
      reads this, db
    {
      db.Valid() && Holds(db.writes, ser, model) && Bounds()
    }

    constructor (d: Db, f: Serde, p: Persisted)
      requires d.Valid() && Holds(d.writes, f, p)
      ensures Valid() && db == d && ser == f && model == p
    {
      db, ser, model := d, f, p;
      firstIndex := if p.entries == [] then 0 else p.entries[0].index;
      lastIndex := if p.entries == [] then 0 else p.entries[|p.entries| - 1].index;
    }

    /** The range of stored entries to delete: all of them under a snapshot, the overwritten ones under an append. */
    method OverwrittenRange(append: seq<Entry>, snap: bool) returns (first: nat, last: nat)
      requires Bounds() && Consecutive(model.entries) && Consecutive(append)
      ensures DeletesFor(model.entries, append, snap, first, last)
    {
      first, last := 1, 0;
      if snap {
        if lastIndex != 0 { first, last := firstIndex, lastIndex; }
      } else if append != [] && lastIndex != 0 && append[0].index <= lastIndex {
        first, last := append[0].index, lastIndex;
      }
    }

    method MoveBounds(append: seq<Entry>, snap: bool)
      requires Bounds() && Consecutive(model.entries) && Consecutive(append)
      requires append != [] && !snap && lastIndex != 0 ==> append[0].index <= lastIndex + 1
      modifies this`firstIndex, this`lastIndex
      ensures BoundsOf(RaftHost.StoreEntries(if snap then [] else model.entries, append), firstIndex, lastIndex)
    {
      StoreBounds(if snap then [] else model.entries, append);
      if snap { firstIndex, lastIndex := 0, 0; }
      if append != [] {
        if firstIndex == 0 || append[0].index < firstIndex { firstIndex := append[0].index; }
        lastIndex := append[|append| - 1].index;
      }
    }

    /** One raft output in one batch: an appended entry replaces everything stored at or above its index, and an
        installed snapshot replaces the whole log.  The batch must continue or overwrite the stored log.  Until the
        batch is in the database's log its disk recovers to the old history, and from then on to the new one. */
    method PersistOutput(hs: Option<HardState>, append: seq<Entry>, snap: Option<Snapshot>)
      requires Valid() && Consecutive(append)
      requires append != [] && snap.None? && lastIndex != 0 ==> append[0].index <= lastIndex + 1
      modifies this, db
      ensures Valid() && model == RaftHost.Persist(old(model), Output([], [], hs, append, snap, []))
      ensures CrashSafe(old(db.disk), old(db.writes), old(db.trail), db.trail, db.writes, db.size)
    {
      var first, last := OverwrittenRange(append, snap.Some?);
      var ops := DeleteRange(MetaOps(ser, hs, snap), first, last);
      ops := PutAll(ops, ser, append);
      MoveBounds(append, snap.Some?);
      ghost var es2 := RaftHost.StoreEntries(if snap.Some? then [] else model.entries, append);
      PersistReplaces(model.entries, append, snap.Some?, first, last, es2);
      Commit(ops, hs, snap, first, last, append, es2);
    }

    /** Drops the log prefix that a locally taken snapshot covers. */
    method CompactTo(snap: Snapshot)
      requires Valid()
      modifies this, db
      ensures Valid()
      ensures model == old(model).(snapshot := Some(snap), entries := RaftHost.Above(old(model).entries, snap.lastIndex))
      ensures CrashSafe(old(db.disk), old(db.writes), old(db.trail), db.trail, db.writes, db.size)
    {
      var ops := MetaOps(ser, None, Some(snap));
      var first, last := 1, 0;
      if lastIndex != 0 && firstIndex <= snap.lastIndex {
        first, last := firstIndex, Min(snap.lastIndex, lastIndex);
        if snap.lastIndex >= lastIndex {
          firstIndex, lastIndex := 0, 0;
        } else {
          firstIndex := snap.lastIndex + 1;
        }
      }
      ops := DeleteRange(ops, first, last);
      AboveReplaces(model.entries, snap.lastIndex, first, last);
      AboveBounds(model.entries, snap.lastIndex);
      assert ops + Puts(ser, []) == ops;
      Commit(ops, None, Some(snap), first, last, [], RaftHost.Above(model.entries, snap.lastIndex));
    }

    /** Writes the batch; the database then holds the new state. */
    method Commit(ops: seq<Op>, ghost hs: Option<HardState>, ghost snap: Option<Snapshot>, ghost first: nat, ghost last: nat,
                  ghost append: seq<Entry>, ghost es2: seq<Entry>)
      requires db.Valid() && Holds(db.writes, ser, model) && last <= MAX_INDEX && Consecutive(append)
      requires Replaces(model.entries, first, last, append, es2) && ops == BatchOps(ser, hs, snap, first, last, append)
      modifies this`model, db
      ensures db.Valid() && Holds(db.writes, ser, model)
      ensures model == Persisted(if hs.Some? then hs.value else old(model).hardState, es2, if snap.Some? then snap else old(model).snapshot)
      ensures CrashSafe(old(db.disk), old(db.writes), old(db.trail), db.trail, db.writes, db.size)
    {
      BatchHolds(db.writes, ser, model, hs, snap, first, last, append, es2);
      var n := db.WriteBatch(ops);
      model := Persisted(if hs.Some? then hs.value else model.hardState, es2, if snap.Some? then snap else model.snapshot);
    }
  }

  lemma AboveBounds(es: seq<Entry>, idx: nat)
    requires Consecutive(es)
    ensures var r := RaftHost.Above(es, idx);
            if es == [] || idx >= es[0].index + |es| - 1 then r == []
            else if idx < es[0].index then r == es
            else r != [] && r[0].index == idx + 1 && |r| == es[0].index + |es| - 1 - idx
  {
    if es != [] {
      var base := es[0].index - 1;
      if idx <= base { AboveAll(es, base, idx); } else if idx <= base + |es| { AboveContiguous(es, base, idx); } else { AboveNone(es, base, idx); }
    }
  }
}
