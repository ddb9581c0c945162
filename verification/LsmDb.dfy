/** The storage engine (crates/storage/src/db.rs): writes, reads, flush, compaction and recovery.

    `writes` is the history of all operations so far; write number `n` has sequence number `n`.
    `trail` records every state the disk passes through, so a crash at any step is one of its elements. */
module LsmDb {
  import opened Prelude
  import opened LsmSpec
  import opened LsmOrder
  import opened LsmMerge
  import opened LsmLevels
  import opened LsmRewrite
  import opened LsmSelect
  import opened LsmMeasure
  import opened LsmState
  import opened LsmScan

  datatype Options = Options(memtableBytes: nat, l0Trigger: nat, levelBase: nat, multiplier: nat, target: nat)

  predicate OptionsOk(o: Options) { o.l0Trigger >= 1 && o.levelBase >= 1 && o.multiplier >= 2 }

  function EntryCost(k: Bytes, v: Option<Bytes>): nat { |k| + (if v.Some? then |v.value| else 0) + 24 }

  /** What the memtable counts for the operations of a log. */
  function OpsCost(ops: seq<Op>): nat {
    if ops == [] then 0 else OpsCost(ops[..|ops| - 1]) + EntryCost(ops[|ops| - 1].key, ops[|ops| - 1].value)
  }

  function WalCost(wal: seq<Batch>): nat { if wal == [] then 0 else WalCost(wal[..|wal| - 1]) + OpsCost(wal[|wal| - 1].ops) }

  lemma TakeNext(w: seq<Op>, ops: seq<Op>, i: nat)
    requires i < |ops|
    ensures w + ops[..i + 1] == (w + ops[..i]) + [ops[i]]
  {}

  lemma CostNext(ops: seq<Op>, i: nat)
    requires i < |ops|
    ensures OpsCost(ops[..i + 1]) == OpsCost(ops[..i]) + EntryCost(ops[i].key, ops[i].value)
  {
    assert ops[..i + 1][..i] == ops[..i];
  }

  // ------------------------------------------------------------- what one compaction does

  ghost function TableSet(level: Level): set<Table> { set t | t in level }

  /** All of level 0, or the oldest table of a deeper level. */
  ghost function Picks(level: Level, l: nat): set<Table> {
    set t | t in level && (l == 0 || forall u :: u in level ==> t.id <= u.id)
  }

  /** The tables that the inputs touch. */
  ghost function Touched(level: Level, src: set<Ver>): set<Table> { set t | t in level && t.Ok() && Touches(t, src) }

  ghost function VersSet(tables: set<Table>): set<Ver> { set t, x | t in tables && x in t.entries :: x }

  /** The picked tables leave level `l`, the tables they touch leave the next, and `outputs` come in their place, with what
      survives of both, cut at the target size; nothing else changes. */
  ghost predicate CompactedTo(before: seq<Level>, after: seq<Level>, l: nat, minSnap: nat, target: nat, outputs: Level)
    requires l + 1 < |before|
  {
    var src := Picks(before[l], l);
    var dst := Touched(before[l + 1], VersSet(src));
    var levels := |after| == |before| && after == before[l := after[l]][l + 1 := after[l + 1]];
    var tables := levels && TableSet(after[l]) == TableSet(before[l]) - src && TableSet(after[l + 1]) == (TableSet(before[l + 1]) - dst) + TableSet(outputs);
    tables && LevelSet(outputs) == Survivors(VersSet(src) + VersSet(dst), minSnap, IsBottom(before, l)) && Split(outputs, target)
  }

  /** The oldest live snapshot, or the last number when there is none. */
  ghost predicate OldestSnap(snaps: map<nat, nat>, last: nat, m: nat) {
    var oldest := (if snaps == map[] then m == last else m in snaps) && forall s :: s in snaps ==> m <= s;
    oldest
  }

  /** The effect of compacting level `l`, for some choice of outputs. */
  ghost predicate Compacts(before: seq<Level>, after: seq<Level>, l: nat, snaps: map<nat, nat>, last: nat, target: nat) {
    var some := l + 1 < |before| && exists minSnap, outputs ::
      OldestSnap(snaps, last, minSnap) && CompactedTo(before, after, l, minSnap, target, outputs);
    some
  }

  /** The levels, with empty ones below so that there are at least `n`. */
  function Grown(levels: seq<Level>, n: nat): seq<Level> { if |levels| < n then levels + seq(n - |levels|, i => []) else levels }

  class Db {
    const opts: Options
    const size: seq<Ver> -> nat
    var mem: seq<Ver>
    var memBytes: nat
    var levels: seq<Level>
    var disk: Disk
    var last: nat
    var snaps: map<nat, nat>
    ghost var writes: seq<Op>
    ghost var floor: nat
    ghost var trail: seq<Disk>

    ghost predicate Meaning()
      reads this
    {
      var meaning := Sorted(mem) && Sound(writes, CompsOf(SetOf(mem), levels), floor) && last == |writes| && floor <= last;
      meaning
    }

    ghost predicate Durable()
      reads this
    {
      var saved := Extends(levels, disk.levels) && LevelsOk(levels, disk.nextId, size);
      var logged := SetOf(mem) == WalSet(disk.wal) && last == SeqOf(disk) && memBytes == WalCost(disk.wal);
      saved && logged
    }

    /** Every live snapshot can still be read. */
    ghost predicate SnapsOk()
      reads this
    {
      forall s :: s in snaps ==> floor <= s <= last && snaps[s] > 0
    }

    ghost predicate Valid()
      reads this
    {
      OptionsOk(opts) && Meaning() && Durable() && SnapsOk()
    }

    /** The disk alone would rebuild the present history. */
    lemma ValidRecovers()
      requires Valid()
      ensures RecoversTo(disk, writes, size)
    {
      SavedEnough(writes, SetOf(mem), levels, disk.levels, floor, disk.nextId, size);
      assert DiskOk(disk, writes, floor, size);
    }

    // ----------------------------------------------------------- opening

    /** Opening a disk gives back the history it recovers to; every state of the disk on the way still does. */
    constructor (d: Disk, o: Options, sz: seq<Ver> -> nat, ghost w: seq<Op>)
      requires OptionsOk(o) && RecoversTo(d, w, sz)
      ensures Valid() && writes == w && opts == o && size == sz && snaps == map[]
      ensures forall i :: 0 <= i < |trail| ==> RecoversTo(trail[i], w, sz)
    {
      opts, size := o, sz;
      mem, memBytes, levels, disk, last, snaps := [], 0, Pad(d.levels), d, d.lastSeq, map[];
      ghost var f :| DiskOk(d, w, f, sz);
      writes, floor, trail := w, f, [];
      new;
      ghost var c := CompsOf(WalSet(d.wal), levels);
      SoundFunctional(w, c, f, WalSet(d.wal)) by {
        forall x | x in WalSet(d.wal) ensures Held(c, x) { assert x in c[0]; }
      }
      Replay();
      MaybeFlush();
    }

    /** Inserts every operation of the log into the memtable and finds the highest number. */
    method Replay()
      requires mem == [] && memBytes == 0 && last == disk.lastSeq && Functional(WalSet(disk.wal))
      modifies this`mem, this`memBytes, this`last
      ensures Sorted(mem) && SetOf(mem) == WalSet(disk.wal) && last == SeqOf(disk) && memBytes == WalCost(disk.wal)
    {
      assert SetOf(mem) == {};
      for b := 0 to |disk.wal|
        invariant Sorted(mem) && SetOf(mem) == WalSet(disk.wal[..b])
        invariant last == Max(disk.lastSeq, LastOfWal(disk.wal[..b])) && memBytes == WalCost(disk.wal[..b])
      {
        assert disk.wal[..b + 1][..b] == disk.wal[..b];
        WalSetGrows(disk.wal, b);
        ReplayBatch(disk.wal[b]);
      }
      assert disk.wal[..|disk.wal|] == disk.wal;
    }

    /** Puts one version into the memtable; finding it there already is harmless. */
    method Remember(x: Ver, ghost all: set<Ver>)
      requires Sorted(mem) && SetOf(mem) <= all && x in all && Functional(all)
      modifies this`mem, this`memBytes
      ensures Sorted(mem) && SetOf(mem) == SetOf(old(mem)) + {x} && memBytes == old(memBytes) + EntryCost(x.key, x.value)
    {
      InsertKnown(mem, x, all);
      memBytes := memBytes + EntryCost(x.key, x.value);
      mem := Inserted(mem, x);
    }

    method ReplayOp(b: Batch, i: nat, ghost base: set<Ver>)
      requires i < |b.ops| && Sorted(mem) && Functional(base + BatchSet(b)) && SetOf(mem) == base + BatchSet(Batch(b.firstSeq, b.ops[..i]))
      modifies this`mem, this`memBytes, this`last
      ensures Sorted(mem) && SetOf(mem) == base + BatchSet(Batch(b.firstSeq, b.ops[..i + 1])) && last == Max(old(last), b.firstSeq + i)
      ensures memBytes - OpsCost(b.ops[..i + 1]) == old(memBytes) - OpsCost(b.ops[..i])
    {
      var x := Ver(b.ops[i].key, b.firstSeq + i, b.ops[i].value);
      BatchNext(b.firstSeq, b.ops, i);
      BatchPart(b, i);
      CostNext(b.ops, i);
      Remember(x, base + BatchSet(b));
      last := Max(last, x.num);
    }

    method ReplayBatch(b: Batch)
      requires Sorted(mem) && Functional(SetOf(mem) + BatchSet(b))
      modifies this`mem, this`memBytes, this`last
      ensures Sorted(mem) && SetOf(mem) == SetOf(old(mem)) + BatchSet(b) && memBytes == old(memBytes) + OpsCost(b.ops)
      ensures last == Max(old(last), if b.ops == [] then 0 else b.firstSeq + |b.ops| - 1)
    {
      assert BatchSet(Batch(b.firstSeq, [])) == {};
      for i := 0 to |b.ops|
        invariant Sorted(mem) && SetOf(mem) == SetOf(old(mem)) + BatchSet(Batch(b.firstSeq, b.ops[..i]))
        invariant last == Max(old(last), if i == 0 then 0 else b.firstSeq + i - 1) && memBytes == old(memBytes) + OpsCost(b.ops[..i])
      {
        ReplayOp(b, i, SetOf(old(mem)));
      }
      assert b.ops[..|b.ops|] == b.ops;
    }

    // ----------------------------------------------------------- reads

    /** The newest write at or below `s`, for the current number or any live snapshot. */
    method GetAt(k: Bytes, s: nat) returns (r: Option<Bytes>)
      requires Valid()
      ensures s in snaps || s >= last ==> r == Newest(writes, k, s)
      ensures floor <= s ==> r == Newest(writes, k, s)
    {
      ghost var c := CompsOf(SetOf(mem), levels);
      var hit := FirstHit(mem, k, s);
      FirstHitIsBest(mem, k, s);
      if hit.Some? {
        if floor <= s { HitIsNewest(writes, c, floor, k, s, 0, hit.value); }
        return hit.value.value;
      }
      for li := 0 to |levels|
        invariant forall j, y: Ver :: 0 <= j < li + 1 && y in c[j] && y.key == k ==> y.num > s
      {
        assert LevelOk(levels[li], li > 0, disk.nextId, size);
        var best: Option<Ver>;
        if li == 0 {
          best := BestOf(levels[li], k, s);
        } else {
          best := FindInLevel(levels[li], k, s);
        }
        assert c[li + 1] == LevelSet(levels[li]);
        if best.Some? {
          if floor <= s { HitIsNewest(writes, c, floor, k, s, li + 1, best.value); }
          return best.value.value;
        }
      }
      if floor <= s { MissIsAbsent(writes, c, floor, k, s); }
      r := None;
    }

    /** The live pairs of the range at `s`, in key order, up to the limit. */
    method ScanAt(start: Bytes, end: Option<Bytes>, limit: nat, s: nat) returns (out: seq<(Bytes, Bytes)>)
      requires Valid() && limit >= 1
      ensures s in snaps || s >= last ==> ScansRight(writes, start, end, limit, s, out)
    {
      var merged := AllVersions();
      ghost var done;
      out, done := ScanStream(merged, start, end, limit, s);
      if floor <= s {
        ghost var c := CompsOf(SetOf(mem), levels);
        StreamOfTree(c, merged, s);
        ScanComplete(writes, c, floor, merged, VisibleOf(merged, None, s), done, start, end, limit, s, out);
      }
    }

    /** Memtable and tables merged into one stream of versions. */
    method AllVersions() returns (merged: seq<Ver>)
      requires Valid()
      ensures Ascending(merged) && forall x :: x in merged <==> Held(CompsOf(SetOf(mem), levels), x)
    {
      var sources := [mem];
      FirstSource(mem, levels);
      for i := 0 to |levels|
        invariant AllSorted(sources) && Union(sources) == SetOf(mem) + Stored(levels[..i])
      {
        assert LevelOk(levels[i], i > 0, disk.nextId, size);
        MoreSources(sources, levels, i);
        sources := sources + Entries(levels[i]);
      }
      assert levels[..|levels|] == levels;
      var merge := new MergeIter(sources);
      merged := merge.Collect();
      forall x ensures x in merged <==> Held(CompsOf(SetOf(mem), levels), x) {
        HeldIsStored(SetOf(mem), levels, x);
        assert x in merged <==> x in SetOf(merged);
      }
    }

    // ----------------------------------------------------------- snapshots

    method TakeSnapshot() returns (s: nat)
      requires Valid()
      modifies this`snaps
      ensures Valid() && s == last
      ensures snaps == old(snaps)[s := (if s in old(snaps) then old(snaps)[s] else 0) + 1]
    {
      s := last;
      snaps := snaps[s := (if s in snaps then snaps[s] else 0) + 1];
    }

    method DropSnapshot(s: nat)
      requires Valid()
      modifies this`snaps
      ensures Valid()
      ensures snaps == if s !in old(snaps) then old(snaps)
                       else if old(snaps)[s] == 1 then old(snaps) - {s}
                       else old(snaps)[s := old(snaps)[s] - 1]
    {
      if s in snaps {
        var c := snaps[s] - 1;
        if c == 0 { snaps := snaps - {s}; } else { snaps := snaps[s := c]; }
      }
    }

    /** The oldest live snapshot, or the current number when there is none. */
    method MinSnap() returns (m: nat)
      requires Valid()
      ensures floor <= m <= last && OldestSnap(snaps, last, m)
    {
      m := last;
      var left := snaps.Keys;
      while left != {}
        invariant left <= snaps.Keys
        invariant floor <= m <= last && (m in snaps || m == last)
        invariant forall s :: s in snaps && s !in left ==> m <= s
        decreases |left|
      {
        var s :| s in left;
        if s < m { m := s; }
        left := left - {s};
      }
    }

    // ----------------------------------------------------------- flush

    /** The memtable becomes a table of level 0; the log is emptied only after the manifest names it.
        Every state of the disk on the way recovers to the same history. */
    method Flush()
      requires Valid()
      modifies this
      ensures Valid() && writes == old(writes) && floor == old(floor) && snaps == old(snaps) && last == old(last)
      ensures old(trail) <= trail && forall i :: |old(trail)| <= i < |trail| ==> RecoversTo(trail[i], writes, size)
      ensures mem == [] && (old(mem) != [] ==> disk.wal == [])
      ensures levels == if old(mem) == [] then old(levels)
                        else old(levels)[0 := old(levels)[0] + [Table(old(disk).nextId, old(mem), size(old(mem)))]]
    {
      if mem == [] { return; }
      var id := disk.nextId;
      var table := Table(id, mem, size(mem));
      FlushedLevels(levels, disk.nextId, size, table);
      FlushedComps(writes, SetOf(mem), levels, floor, table);

      var after := levels[0 := levels[0] + [table]];
      SavedState(writes, SetOf(mem), after, id + 1, size, floor, disk.(lastSeq := last));
      SavedState(writes, {}, after, id + 1, size, floor, disk.(lastSeq := last, wal := []));
      disk := Disk(after, id + 1, last, disk.wal);
      trail := trail + [disk];

      levels, mem, memBytes := after, [], 0;
      disk := disk.(wal := []);
      assert SetOf([]) == {};
      trail := trail + [disk];
    }

    // ----------------------------------------------------------- compaction

    /** Empty levels down to `l`, in memory only. */
    method GrowTo(l: nat)
      requires Valid()
      modifies this`levels
      ensures Valid() && levels == Grown(old(levels), l + 1) && |old(levels)| <= |levels| && levels[..|old(levels)|] == old(levels)
      ensures forall i :: |old(levels)| <= i < |levels| ==> levels[i] == []
      ensures Stored(levels) == Stored(old(levels)) && forall d :: Weight(levels, d) == Weight(old(levels), d)
    {
      while |levels| <= l
        invariant levels == Grown(old(levels), |levels|) && |levels| <= Max(|old(levels)|, l + 1)
        invariant Valid() && |old(levels)| <= |levels| && levels[..|old(levels)|] == old(levels)
        invariant forall i :: |old(levels)| <= i < |levels| ==> levels[i] == []
        invariant Stored(levels) == Stored(old(levels)) && forall d :: Weight(levels, d) == Weight(old(levels), d)
      {
        PushedLevel(writes, SetOf(mem), levels, floor, disk.nextId, size);
        forall d ensures Weight(levels + [[]], d) == Weight(levels, d) { WeightPadded(levels, d); }
        levels := levels + [[]];
      }
    }

    /** All of level 0, or the oldest table of a deeper level. */
    method Sources(l: nat) returns (ids: set<nat>)
      requires Valid() && l < |levels|
      ensures l == 0 ==> forall t :: t in levels[0] ==> t.id in ids
      ensures levels[l] != [] ==> ids != {} && Select(levels[l], ids, true) != []
      ensures levels[l] == [] ==> ids == {}
      ensures TableSet(Select(levels[l], ids, true)) == Picks(levels[l], l)
    {
      if levels[l] == [] { return {}; }
      if l == 0 {
        ids := set t | t in levels[0] :: t.id;
        assert levels[0][0] in levels[0] && levels[0][0] in Select(levels[0], ids, true);
      } else {
        var t := Oldest(levels[l]);
        ids := {t.id};
        assert t in Select(levels[l], ids, true);
        OnlyOldest(levels[l], l, t, disk.nextId, size);
      }
    }

    method BelowEmpty(l: nat) returns (b: bool)
      ensures b <==> IsBottom(levels, l)
    {
      for j := l + 2 to Max(l + 2, |levels|)
        invariant forall i :: l + 2 <= i < j && i < |levels| ==> levels[i] == []
      {
        if j < |levels| && levels[j] != [] { return false; }
      }
      b := true;
    }

    /** Replaces the chosen tables by what survives of them.  The history stays as it was, every number from
        the oldest snapshot on reads as before, and the tree gets lighter. */
    method CompactLevel(l: nat)
      requires Valid() && l < |levels|
      modifies this`levels, this`disk, this`floor, this`trail
      ensures Valid() && |old(levels)| <= |levels| && old(floor) <= floor
      ensures if old(levels)[l] == [] then levels == Grown(old(levels), l + 2) && disk == old(disk)
              else Compacts(Grown(old(levels), l + 2), levels, l, snaps, last, opts.target)
      ensures disk.wal == old(disk).wal && disk.lastSeq == old(disk).lastSeq && Stored(levels) <= Stored(old(levels))
      ensures forall d :: l < d && old(levels)[l] != [] ==> Weight(levels, d) < Weight(old(levels), d)
      ensures old(trail) <= trail && forall i :: |old(trail)| <= i < |trail| ==> RecoversTo(trail[i], writes, size)
    {
      GrowTo(l + 1);
      var srcIds := Sources(l);
      if srcIds == {} { return; }
      ghost var before, nextId := levels, disk.nextId;
      ghost var dstIds, outputs, minSnap, lo, hi, bottom := Replace(l, srcIds);
      SwapCompacts(before, nextId, size, l, srcIds, dstIds, lo, hi, minSnap, bottom, outputs, opts.target, snaps, last);
    }

    /** Rewrites the chosen tables, puts the outputs in the place of the inputs and saves the result. */
    method Replace(l: nat, srcIds: set<nat>)
      returns (ghost dstIds: set<nat>, ghost outs: Level, ghost minSnap: nat, ghost lo: Bytes, ghost hi: Bytes, ghost bottom: bool)
      requires Valid() && l + 1 < |levels| && Select(levels[l], srcIds, true) != []
      requires l == 0 ==> forall t :: t in levels[0] ==> t.id in srcIds
      modifies this`levels, this`disk, this`floor, this`trail
      ensures Valid() && old(floor) <= floor && OldestSnap(snaps, last, minSnap)
      ensures Merged(old(levels), old(disk).nextId, size, l, srcIds, dstIds, lo, hi, minSnap, bottom, outs, opts.target)
      ensures levels == Swapped(old(levels), l, srcIds, dstIds, outs) && Stored(levels) <= Stored(old(levels))
      ensures disk.wal == old(disk).wal && disk.lastSeq == old(disk).lastSeq
      ensures forall d :: l < d ==> Weight(levels, d) < Weight(old(levels), d)
      ensures old(trail) <= trail && forall i :: |old(trail)| <= i < |trail| ==> RecoversTo(trail[i], writes, size)
    {
      var ids, outputs, nextId, snap, first, final, nothingBelow := MergeInputs(l, srcIds);
      dstIds, outs, minSnap, lo, hi, bottom := ids, outputs, snap, first, final, nothingBelow;
      SwapSound(writes, SetOf(mem), floor, levels, disk.nextId, size, l, srcIds, ids, first, final, snap, nothingBelow, outputs);
      Save(Swapped(levels, l, srcIds, ids, outputs), nextId, snap);
    }

    /** The manifest first, then the levels in memory. */
    method Save(after: seq<Level>, nextId: nat, ghost minSnap: nat)
      requires Valid() && LevelsOk(after, nextId, size) && Sound(writes, CompsOf(SetOf(mem), after), minSnap)
      requires floor <= minSnap <= last && forall s :: s in snaps ==> minSnap <= s
      modifies this`levels, this`disk, this`floor, this`trail
      ensures Valid() && levels == after && floor == minSnap && disk == Disk(after, nextId, old(disk).lastSeq, old(disk).wal)
      ensures trail == old(trail) + [disk] && RecoversTo(disk, writes, size)
    {
      SavedState(writes, SetOf(mem), after, nextId, size, minSnap, disk);
      disk := Disk(after, nextId, disk.lastSeq, disk.wal);
      trail := trail + [disk];
      floor, levels := minSnap, after;
    }

    /** A compaction seen from the loop around it: the history stays and the tree gets lighter. */
    method CompactStep(l: nat)
      requires Valid() && l < |levels| && levels[l] != []
      modifies this`levels, this`disk, this`floor, this`trail
      ensures Valid() && old(floor) <= floor && disk.wal == old(disk).wal && Stored(levels) <= Stored(old(levels))
      ensures forall d :: l < d ==> Weight(levels, d) < Weight(old(levels), d)
      ensures old(trail) <= trail && forall i :: |old(trail)| <= i < |trail| ==> RecoversTo(trail[i], writes, size)
    {
      CompactLevel(l);
    }

    function LevelLimit(i: nat): nat { opts.levelBase * Pow(opts.multiplier, if i == 0 then 0 else i - 1) }

    /** The first level below 0 that is over its limit. */
    method OverLimit() returns (r: Option<nat>)
      ensures r.None? ==> forall i :: 1 <= i < |levels| ==> LevelBytes(levels[i]) <= LevelLimit(i)
      ensures r.Some? ==> 1 <= r.value < |levels| && LevelBytes(levels[r.value]) > LevelLimit(r.value)
    {
      for i := 1 to Max(1, |levels|)
        invariant forall j :: 1 <= j < i && j < |levels| ==> LevelBytes(levels[j]) <= LevelLimit(j)
      {
        if i < |levels| && LevelBytes(levels[i]) > LevelLimit(i) { return Some(i); }
      }
      r := None;
    }

    /** Compacts until level 0 is below its trigger and every other level within its limit.  It always gets there. */
    method MaybeCompact()
      requires Valid()
      modifies this`levels, this`disk, this`floor, this`trail
      ensures Valid() && old(floor) <= floor && disk.wal == old(disk).wal
      ensures |levels[0]| < opts.l0Trigger && forall i :: 1 <= i < |levels| ==> LevelBytes(levels[i]) <= LevelLimit(i)
      ensures old(trail) <= trail && forall i :: |old(trail)| <= i < |trail| ==> RecoversTo(trail[i], writes, size)
    {
      ghost var all := Stored(levels);
      ghost var b := SizesBounded(all, size);
      ghost var deep := b * |all| + 1;
      while true
        invariant Valid() && old(floor) <= floor && Stored(levels) <= all && disk.wal == old(disk).wal
        invariant old(trail) <= trail && forall i :: |old(trail)| <= i < |trail| ==> RecoversTo(trail[i], writes, size)
        decreases Weight(levels, deep)
      {
        if |levels[0]| >= opts.l0Trigger {
          CompactStep(0);
          continue;
        }
        var over := OverLimit();
        if over.None? { return; }
        OverIsShallow(levels, disk.nextId, size, all, b, opts.levelBase, opts.multiplier, over.value);
        CompactStep(over.value);
      }
    }

    // ----------------------------------------------------------- writes

    /** Nothing happens below the memtable's limit; at it the memtable is written out and the tree compacted. */
    method MaybeFlush()
      requires Valid()
      modifies this
      ensures Valid() && writes == old(writes) && old(floor) <= floor && snaps == old(snaps) && last == old(last)
      ensures old(trail) <= trail && forall i :: |old(trail)| <= i < |trail| ==> RecoversTo(trail[i], writes, size)
      ensures WalCost(old(disk).wal) < opts.memtableBytes ==>
              mem == old(mem) && levels == old(levels) && disk == old(disk) && floor == old(floor) && trail == old(trail)
      ensures WalCost(old(disk).wal) >= opts.memtableBytes ==>
              && mem == [] && (old(mem) != [] ==> disk.wal == [])
              && |levels[0]| < opts.l0Trigger && forall i :: 1 <= i < |levels| ==> LevelBytes(levels[i]) <= LevelLimit(i)
    {
      if memBytes >= opts.memtableBytes {
        Flush();
        MaybeCompact();
      }
    }

    /** One batch: one log frame, consecutive numbers.  From the moment the frame is in the log every state
        of the disk recovers to the history with the whole batch; before it, to the history without it. */
    method WriteBatch(ops: seq<Op>) returns (n: nat)
      requires Valid()
      modifies this
      ensures Valid() && writes == old(writes) + ops && n == last && snaps == old(snaps) && old(floor) <= floor
      ensures old(trail) <= trail && forall i :: |old(trail)| <= i < |trail| ==> RecoversTo(trail[i], writes, size)
      ensures RecoversTo(old(disk), old(writes), size)
      ensures ops != [] ==> mem == [] || WalCost(disk.wal) < opts.memtableBytes
      ensures ops != [] ==> |old(trail)| < |trail| && trail[|old(trail)|] == old(disk).(wal := old(disk).wal + [Batch(old(last) + 1, ops)])
    {
      ValidRecovers();
      if ops == [] {
        assert writes + ops == writes;
        return last;
      }
      LogBatch(ops);
      MaybeFlush();
      n := last;
    }

    /** The frame goes to the log first, then the operations to the memtable. */
    method LogBatch(ops: seq<Op>)
      requires Valid() && ops != []
      modifies this`disk, this`mem, this`memBytes, this`writes, this`last, this`trail
      ensures Valid() && writes == old(writes) + ops
      ensures disk == old(disk).(wal := old(disk).wal + [Batch(old(last) + 1, ops)])
      ensures trail == old(trail) + [disk] && RecoversTo(disk, writes, size)
    {
      var first := last + 1;
      WalAppend(disk.wal, Batch(first, ops));
      assert (disk.wal + [Batch(first, ops)])[..|disk.wal|] == disk.wal;
      disk := disk.(wal := disk.wal + [Batch(first, ops)]);
      InsertAll(first, ops);
      writes := writes + ops;
      last := first + |ops| - 1;
      trail := trail + [disk];
      ValidRecovers();
    }

    /** Numbers the operations from `first` on and puts them into the memtable. */
    method InsertAll(first: nat, ops: seq<Op>)
      requires Meaning() && first == last + 1
      modifies this`mem, this`memBytes
      ensures Sorted(mem) && Sound(writes + ops, CompsOf(SetOf(mem), levels), floor)
      ensures SetOf(mem) == SetOf(old(mem)) + BatchSet(Batch(first, ops)) && memBytes == old(memBytes) + OpsCost(ops)
    {
      assert writes + ops[..0] == writes;
      assert BatchSet(Batch(first, [])) == {};
      for i := 0 to |ops|
        invariant Sorted(mem) && Sound(writes + ops[..i], CompsOf(SetOf(mem), levels), floor)
        invariant SetOf(mem) == SetOf(old(mem)) + BatchSet(Batch(first, ops[..i])) && memBytes == old(memBytes) + OpsCost(ops[..i])
      {
        CostNext(ops, i);
        var x := Ver(ops[i].key, first + i, ops[i].value);
        InsertFresh(writes + ops[..i], mem, levels, floor, x);
        BatchNext(first, ops, i);
        memBytes := memBytes + EntryCost(ops[i].key, ops[i].value);
        mem := Inserted(mem, x);
        TakeNext(writes, ops, i);
      }
      assert ops[..|ops|] == ops;
    }

    /** The range of the sources, what overlaps it below, and what may be dropped. */
    method ChooseInputs(l: nat, srcIds: set<nat>) returns (dstIds: set<nat>, minSnap: nat, lo: Bytes, hi: Bytes, bottom: bool)
      requires Valid() && l + 1 < |levels| && Select(levels[l], srcIds, true) != []
      requires l == 0 ==> forall t :: t in levels[0] ==> t.id in srcIds
      ensures floor <= minSnap <= last && OldestSnap(snaps, last, minSnap) && (bottom <==> IsBottom(levels, l))
      ensures Spans(Select(levels[l], srcIds, true), lo, hi) && Inputs(levels, l, srcIds, dstIds, lo, hi)
    {
      assert LevelOk(levels[l], l > 0, disk.nextId, size) && LevelOk(levels[l + 1], true, disk.nextId, size);
      var src := Select(levels[l], srcIds, true);
      lo, hi := KeyRange(src);
      dstIds := OverlapIds(levels[l + 1], lo, hi);
      minSnap := MinSnap();
      bottom := BelowEmpty(l);
    }

    /** Merges the inputs and writes the surviving versions to new tables. */
    method MergeInputs(l: nat, srcIds: set<nat>)
      returns (dstIds: set<nat>, outputs: Level, nextId: nat, minSnap: nat, lo: Bytes, hi: Bytes, bottom: bool)
      requires Valid() && l + 1 < |levels| && Select(levels[l], srcIds, true) != []
      requires l == 0 ==> forall t :: t in levels[0] ==> t.id in srcIds
      ensures nextId == disk.nextId + |outputs| && floor <= minSnap <= last && OldestSnap(snaps, last, minSnap)
      ensures Merged(levels, disk.nextId, size, l, srcIds, dstIds, lo, hi, minSnap, bottom, outputs, opts.target)
    {
      dstIds, minSnap, lo, hi, bottom := ChooseInputs(l, srcIds);
      MergeReady(writes, SetOf(mem), levels, floor, l, srcIds, dstIds);
      var iter := new MergeIter(Entries(Select(levels[l], srcIds, true) + Select(levels[l + 1], dstIds, true)));
      var merged := iter.Collect();
      outputs, nextId := Rewrite(merged, minSnap, bottom, opts.target, disk.nextId, size);
    }
  }

  /** A disk that holds these levels and the same log recovers to the same history. */
  lemma SavedState(w: seq<Op>, mem: set<Ver>, levels: seq<Level>, nextId: nat, size: seq<Ver> -> nat, floor: nat, d: Disk)
    requires levels != [] && LevelsOk(levels, nextId, size) && Sound(w, CompsOf(mem, levels), floor)
    requires mem == WalSet(d.wal) && floor <= |w| == SeqOf(d)
    ensures Extends(levels, levels) && RecoversTo(Disk(levels, nextId, d.lastSeq, d.wal), w, size)
  {
    assert DiskOk(Disk(levels, nextId, d.lastSeq, d.wal), w, floor, size);
  }

  lemma OverIsShallow(levels: seq<Level>, nextId: nat, size: seq<Ver> -> nat, all: set<Ver>, b: nat, base: nat, mult: nat, i: nat)
    requires LevelsOk(levels, nextId, size) && Stored(levels) <= all && 1 <= i < |levels| && base >= 1 && mult >= 2
    requires forall run :: Sorted(run) && SetOf(run) <= all ==> size(run) <= b
    requires LevelBytes(levels[i]) > base * Pow(mult, i - 1)
    ensures i < b * |all| + 1 && levels[i] != []
  {
    assert LevelOk(levels[i], true, nextId, size);
    if i > b * |all| {
      forall x | x in LevelSet(levels[i]) ensures x in all { StoredAt(levels, i, x); }
      DeepEnough(levels[i], all, b, size, base, mult, i);
    }
  }

  /** A version with a number above all others goes into the memtable. */
  lemma InsertFresh(w: seq<Op>, mem: seq<Ver>, levels: seq<Level>, floor: nat, x: Ver)
    requires Sorted(mem) && Sound(w, CompsOf(SetOf(mem), levels), floor) && x.num == |w| + 1
    ensures Sorted(Inserted(mem, x)) && SetOf(Inserted(mem, x)) == SetOf(mem) + {x}
    ensures Sound(w + [Op(x.key, x.value)], CompsOf(SetOf(Inserted(mem, x)), levels), floor)
  {
    var c := CompsOf(SetOf(mem), levels);
    InsertedSorted(mem, x);
    forall y | y in mem ensures y.num != x.num {
      assert y in c[0] && Real(w, y);
    }
    assert SetOf(Inserted(mem, x)) == SetOf(mem) + {x};
    WriteKeeps(w, c, floor, Op(x.key, x.value));
    assert CompsOf(SetOf(Inserted(mem, x)), levels) == c[0 := c[0] + {x}];
  }

  /** Inserting a version that agrees with all others adds it to the set. */
  lemma InsertKnown(mem: seq<Ver>, x: Ver, all: set<Ver>)
    requires Sorted(mem) && SetOf(mem) <= all && x in all && Functional(all)
    ensures Sorted(Inserted(mem, x)) && SetOf(Inserted(mem, x)) == SetOf(mem) + {x}
  {
    InsertedSorted(mem, x);
    forall y | y in mem && y.key == x.key && y.num == x.num ensures y == x {
      assert y in SetOf(mem);
    }
  }

  lemma BatchPart(b: Batch, i: nat)
    requires i < |b.ops|
    ensures BatchSet(Batch(b.firstSeq, b.ops[..i])) <= BatchSet(b)
    ensures Ver(b.ops[i].key, b.firstSeq + i, b.ops[i].value) in BatchSet(b)
  {
    forall x | x in BatchSet(Batch(b.firstSeq, b.ops[..i])) ensures x in BatchSet(b) {
      var j :| 0 <= j < i && x == Ver(b.ops[..i][j].key, b.firstSeq + j, b.ops[..i][j].value);
      assert b.ops[..i][j] == b.ops[j];
    }
  }

  lemma {:induction false} WalSetGrows(wal: seq<Batch>, b: nat)
    requires b < |wal|
    ensures WalSet(wal[..b]) + BatchSet(wal[b]) <= WalSet(wal)
    decreases |wal|
  {
    var k := |wal| - 1;
    if b < k {
      WalSetGrows(wal[..k], b);
      assert wal[..k][..b] == wal[..b];
    }
  }

  lemma BatchNext(first: nat, ops: seq<Op>, i: nat)
    requires i < |ops|
    ensures BatchSet(Batch(first, ops[..i + 1])) == BatchSet(Batch(first, ops[..i])) + {Ver(ops[i].key, first + i, ops[i].value)}
  {
    var a, b := BatchSet(Batch(first, ops[..i + 1])), BatchSet(Batch(first, ops[..i]));
    forall x ensures x in a <==> x in b || x == Ver(ops[i].key, first + i, ops[i].value) {
      if x in b {
        var j :| 0 <= j < i && x == Ver(ops[..i][j].key, first + j, ops[..i][j].value);
        assert ops[..i + 1][j] == ops[..i][j];
      }
      if x in a {
        var j :| 0 <= j < i + 1 && x == Ver(ops[..i + 1][j].key, first + j, ops[..i + 1][j].value);
        if j < i { assert ops[..i][j] == ops[..i + 1][j]; }
      }
      assert ops[..i + 1][i] == ops[i];
    }
  }

  /** The merge reads sorted sources, and their versions agree. */
  lemma MergeReady(w: seq<Op>, mem: set<Ver>, levels: seq<Level>, floor: nat, l: nat, srcIds: set<nat>, dstIds: set<nat>)
    requires l + 1 < |levels| && TablesOk(levels[l]) && TablesOk(levels[l + 1]) && Sound(w, CompsOf(mem, levels), floor)
    ensures var src, dst := Select(levels[l], srcIds, true), Select(levels[l + 1], dstIds, true);
            && AllSorted(Entries(src + dst)) && Union(Entries(src + dst)) == LevelSet(src) + LevelSet(dst)
            && Functional(LevelSet(src) + LevelSet(dst))
  {
    var src, dst := Select(levels[l], srcIds, true), Select(levels[l + 1], dstIds, true);
    var all, c := src + dst, CompsOf(mem, levels);
    forall i | 0 <= i < |all| ensures Sorted(all[i].entries) {
      assert all[i] in src || all[i] in dst;
      assert all[i] in levels[l] || all[i] in levels[l + 1];
    }
    LevelSetConcat(src, dst);
    assert Union(Entries(all)) == LevelSet(all) by {
      forall x ensures x in Union(Entries(all)) <==> x in LevelSet(all) {
        if x in LevelSet(all) {
          var i :| 0 <= i < |all| && x in all[i].entries;
          assert x in Entries(all)[i];
        }
        if x in Union(Entries(all)) {
          var i :| 0 <= i < |all| && x in Entries(all)[i];
          assert x in all[i].entries;
        }
      }
    }
    SelectSets(levels[l], srcIds);
    SelectSets(levels[l + 1], dstIds);
    forall x | x in LevelSet(src) + LevelSet(dst) ensures Held(c, x) {
      assert x in c[l + 1] || x in c[l + 2];
    }
    SoundFunctional(w, c, floor, LevelSet(src) + LevelSet(dst));
  }

  /** The choice of inputs and the outputs written for them. */
  ghost predicate Prepared(levels: seq<Level>, nextId: nat, size: seq<Ver> -> nat, l: nat, srcIds: set<nat>, dstIds: set<nat>,
                           lo: Bytes, hi: Bytes, minSnap: nat, bottom: bool, outputs: Level) {
    var inputs := LevelsOk(levels, nextId, size) && Inputs(levels, l, srcIds, dstIds, lo, hi) && (bottom ==> IsBottom(levels, l));
    var shape := TablesOk(outputs) && Disjoint(outputs) && Numbered(outputs, nextId, size);
    inputs && shape && LevelSet(outputs) ==
      Survivors(LevelSet(Select(levels[l], srcIds, true)) + LevelSet(Select(levels[l + 1], dstIds, true)), minSnap, bottom)
  }

  /** A finished merge: all of the above, for the whole range of the sources, with tombstones dropped exactly at the bottom
      and the outputs cut at the target. */
  ghost predicate Merged(levels: seq<Level>, nextId: nat, size: seq<Ver> -> nat, l: nat, srcIds: set<nat>, dstIds: set<nat>,
                         lo: Bytes, hi: Bytes, minSnap: nat, bottom: bool, outputs: Level, target: nat) {
    var merged :=
      && Prepared(levels, nextId, size, l, srcIds, dstIds, lo, hi, minSnap, bottom, outputs)
      && (bottom <==> IsBottom(levels, l)) && Split(outputs, target) && Spans(Select(levels[l], srcIds, true), lo, hi);
    merged
  }

  lemma SwapShape(levels: seq<Level>, nextId: nat, size: seq<Ver> -> nat, l: nat, srcIds: set<nat>, dstIds: set<nat>,
                  lo: Bytes, hi: Bytes, minSnap: nat, bottom: bool, outputs: Level)
    requires Prepared(levels, nextId, size, l, srcIds, dstIds, lo, hi, minSnap, bottom, outputs)
    ensures LevelsOk(Swapped(levels, l, srcIds, dstIds, outputs), nextId + |outputs|, size)
    ensures Stored(Swapped(levels, l, srcIds, dstIds, outputs)) <= Stored(levels)
  {
    OutputsOk(outputs, nextId, size);
    SwappedLevels(levels, l, srcIds, dstIds, lo, hi, nextId, size, outputs);
    SwappedStored(levels, l, srcIds, dstIds, outputs);
  }

  /** Compaction preserves meaning. */
  lemma SwapMeaning(w: seq<Op>, mem: set<Ver>, floor: nat, levels: seq<Level>, nextId: nat, size: seq<Ver> -> nat, l: nat,
                    srcIds: set<nat>, dstIds: set<nat>, lo: Bytes, hi: Bytes, minSnap: nat, bottom: bool, outputs: Level)
    requires Prepared(levels, nextId, size, l, srcIds, dstIds, lo, hi, minSnap, bottom, outputs)
    requires Sound(w, CompsOf(mem, levels), floor)
    ensures Sound(w, CompsOf(mem, Swapped(levels, l, srcIds, dstIds, outputs)), Max(floor, minSnap))
  {
    var src, dst := SwapIsCompaction(mem, levels, nextId, size, l, srcIds, dstIds, lo, hi, minSnap, bottom, outputs);
    CompactKeeps(w, CompsOf(mem, levels), floor, l + 1, src, dst, minSnap, bottom);
  }

  lemma SwapIsCompaction(mem: set<Ver>, levels: seq<Level>, nextId: nat, size: seq<Ver> -> nat, l: nat, srcIds: set<nat>,
                         dstIds: set<nat>, lo: Bytes, hi: Bytes, minSnap: nat, bottom: bool, outputs: Level)
    returns (src: set<Ver>, dst: set<Ver>)
    requires Prepared(levels, nextId, size, l, srcIds, dstIds, lo, hi, minSnap, bottom, outputs)
    ensures CanCompact(CompsOf(mem, levels), l + 1, src, dst, bottom)
    ensures CompsOf(mem, Swapped(levels, l, srcIds, dstIds, outputs)) ==
            Compacted(CompsOf(mem, levels), l + 1, src, dst, minSnap, bottom)
  {
    src, dst := InputsParted(levels, l, srcIds, dstIds, lo, hi, nextId, size);
    CompactionAllowed(mem, levels, l, src, dst, bottom);
    SourcesApart(levels, l, srcIds, nextId, size);
    LowerSet(levels, l, srcIds, dstIds, lo, hi, nextId, size, outputs);
    SwappedComps(mem, levels, l, Select(levels[l], srcIds, false), Lower(levels[l + 1], dstIds, outputs), src, dst, minSnap, bottom);
  }

  lemma SwapSound(w: seq<Op>, mem: set<Ver>, floor: nat, levels: seq<Level>, nextId: nat, size: seq<Ver> -> nat, l: nat,
                  srcIds: set<nat>, dstIds: set<nat>, lo: Bytes, hi: Bytes, minSnap: nat, bottom: bool, outputs: Level)
    requires Prepared(levels, nextId, size, l, srcIds, dstIds, lo, hi, minSnap, bottom, outputs)
    requires Sound(w, CompsOf(mem, levels), floor) && floor <= minSnap && Select(levels[l], srcIds, true) != []
    ensures var after := Swapped(levels, l, srcIds, dstIds, outputs);
            && |after| == |levels| && LevelsOk(after, nextId + |outputs|, size) && Sound(w, CompsOf(mem, after), minSnap)
            && Stored(after) <= Stored(levels) && forall d: nat :: l < d ==> Weight(after, d) < Weight(levels, d)
  {
    SwapShape(levels, nextId, size, l, srcIds, dstIds, lo, hi, minSnap, bottom, outputs);
    SwapMeaning(w, mem, floor, levels, nextId, size, l, srcIds, dstIds, lo, hi, minSnap, bottom, outputs);
    SwapLighter(levels, nextId, size, l, srcIds, dstIds, lo, hi, minSnap, bottom, outputs);
  }

  /** The range of the inputs: no key outside, and both ends are keys of theirs. */
  ghost predicate Spans(src: Level, lo: Bytes, hi: Bytes) {
    && TablesOk(src) && (forall x :: x in LevelSet(src) ==> !Less(x.key, lo) && !Less(hi, x.key))
    && (exists t :: t in src && t.MinKey() == lo) && (exists t :: t in src && t.MaxKey() == hi)
  }

  lemma OnlyOldest(level: Level, l: nat, t: Table, nextId: nat, size: seq<Ver> -> nat)
    requires l > 0 && t in level && DistinctIds(level) && forall u :: u in level ==> t.id <= u.id
    ensures TableSet(Select(level, {t.id}, true)) == Picks(level, l)
  {
    var i :| 0 <= i < |level| && level[i] == t;
    forall u | u in level && u.id == t.id ensures u == t {
      var j :| 0 <= j < |level| && level[j] == u;
      assert i == j;
    }
  }

  lemma VersOfTables(level: Level)
    ensures VersSet(TableSet(level)) == LevelSet(level)
  {
    forall x ensures x in VersSet(TableSet(level)) <==> x in LevelSet(level) {
      if x in LevelSet(level) {
        var t := TableWith(level, x);
        assert t in TableSet(level);
      }
      if x in VersSet(TableSet(level)) {
        var t :| t in TableSet(level) && x in t.entries;
        InTable(level, t, x);
      }
    }
  }

  /** The tables chosen by id are the tables touched. */
  lemma ChosenTouched(low: Level, src: Level, lo: Bytes, hi: Bytes)
    requires TablesOk(low) && DistinctIds(low) && Spans(src, lo, hi)
    ensures TableSet(Select(low, OverlapIds(low, lo, hi), true)) == Touched(low, LevelSet(src))
    ensures TableSet(Select(low, OverlapIds(low, lo, hi), false)) == TableSet(low) - Touched(low, LevelSet(src))
  {
    forall t | t in low ensures t.id in OverlapIds(low, lo, hi) <==> Touches(t, LevelSet(src)) {
      OverlapIdsExact(low, lo, hi, t);
      OverlapsTouches(t, src, lo, hi);
    }
  }

  lemma SwapExact(levels: seq<Level>, nextId: nat, size: seq<Ver> -> nat, l: nat, srcIds: set<nat>, dstIds: set<nat>,
                  lo: Bytes, hi: Bytes, minSnap: nat, outputs: Level, target: nat)
    requires Prepared(levels, nextId, size, l, srcIds, dstIds, lo, hi, minSnap, IsBottom(levels, l), outputs)
    requires Split(outputs, target) && Spans(Select(levels[l], srcIds, true), lo, hi)
    requires TableSet(Select(levels[l], srcIds, true)) == Picks(levels[l], l)
    ensures CompactedTo(levels, Swapped(levels, l, srcIds, dstIds, outputs), l, minSnap, target, outputs)
  {
    InputSets(levels, nextId, size, l, srcIds, dstIds, lo, hi);
    RestTables(levels[l], srcIds, levels[l + 1], dstIds, outputs);
  }

  lemma InputSets(levels: seq<Level>, nextId: nat, size: seq<Ver> -> nat, l: nat, srcIds: set<nat>, dstIds: set<nat>, lo: Bytes, hi: Bytes)
    requires LevelsOk(levels, nextId, size) && Inputs(levels, l, srcIds, dstIds, lo, hi) && Spans(Select(levels[l], srcIds, true), lo, hi)
    requires TableSet(Select(levels[l], srcIds, true)) == Picks(levels[l], l)
    ensures VersSet(Picks(levels[l], l)) == LevelSet(Select(levels[l], srcIds, true))
    ensures var dst := Touched(levels[l + 1], VersSet(Picks(levels[l], l)));
            && VersSet(dst) == LevelSet(Select(levels[l + 1], dstIds, true))
            && TableSet(Select(levels[l + 1], dstIds, false)) == TableSet(levels[l + 1]) - dst
  {
    assert LevelOk(levels[l + 1], true, nextId, size);
    VersOfTables(Select(levels[l], srcIds, true));
    ChosenTouched(levels[l + 1], Select(levels[l], srcIds, true), lo, hi);
    VersOfTables(Select(levels[l + 1], dstIds, true));
  }

  lemma RestTables(up: Level, srcIds: set<nat>, low: Level, dstIds: set<nat>, outputs: Level)
    requires TablesOk(low) && TablesOk(outputs)
    ensures TableSet(Select(up, srcIds, false)) == TableSet(up) - TableSet(Select(up, srcIds, true))
    ensures TableSet(Lower(low, dstIds, outputs)) == TableSet(Select(low, dstIds, false)) + TableSet(outputs)
  {}

  lemma SwapCompacts(levels: seq<Level>, nextId: nat, size: seq<Ver> -> nat, l: nat, srcIds: set<nat>, dstIds: set<nat>, lo: Bytes,
                     hi: Bytes, minSnap: nat, bottom: bool, outputs: Level, target: nat, snaps: map<nat, nat>, last: nat)
    requires Merged(levels, nextId, size, l, srcIds, dstIds, lo, hi, minSnap, bottom, outputs, target)
    requires TableSet(Select(levels[l], srcIds, true)) == Picks(levels[l], l) && OldestSnap(snaps, last, minSnap)
    ensures Compacts(levels, Swapped(levels, l, srcIds, dstIds, outputs), l, snaps, last, target)
  {
    SwapExact(levels, nextId, size, l, srcIds, dstIds, lo, hi, minSnap, outputs, target);
  }

  lemma SwapLighter(levels: seq<Level>, nextId: nat, size: seq<Ver> -> nat, l: nat, srcIds: set<nat>, dstIds: set<nat>,
                    lo: Bytes, hi: Bytes, minSnap: nat, bottom: bool, outputs: Level)
    requires Prepared(levels, nextId, size, l, srcIds, dstIds, lo, hi, minSnap, bottom, outputs)
    requires Select(levels[l], srcIds, true) != []
    ensures forall d: nat :: l < d ==> Weight(Swapped(levels, l, srcIds, dstIds, outputs), d) < Weight(levels, d)
  {
    forall d: nat | l < d ensures Weight(Swapped(levels, l, srcIds, dstIds, outputs), d) < Weight(levels, d) {
      SwappedLighter(levels, l, srcIds, dstIds, lo, hi, nextId, size, outputs, d);
    }
  }

  lemma OutputsOk(outputs: Level, nextId: nat, size: seq<Ver> -> nat)
    requires TablesOk(outputs) && Disjoint(outputs) && Numbered(outputs, nextId, size)
    ensures LevelOk(outputs, true, nextId + |outputs|, size) && forall t :: t in outputs ==> t.id >= nextId
  {}

  lemma FlushedLevels(levels: seq<Level>, nextId: nat, size: seq<Ver> -> nat, t: Table)
    requires LevelsOk(levels, nextId, size) && t.Ok() && t.id == nextId && t.bytes == size(t.entries)
    ensures LevelsOk(levels[0 := levels[0] + [t]], nextId + 1, size)
  {
    var levels2 := levels[0 := levels[0] + [t]];
    assert LevelOk(levels[0], false, nextId, size);
    forall i | 0 <= i < |levels2| ensures LevelOk(levels2[i], i > 0, nextId + 1, size) {
      assert LevelOk(levels[i], i > 0, nextId, size);
      if i == 0 {
        forall j | 0 <= j < |levels[0]| ensures levels[0][j].id != t.id { assert levels[0][j] in levels[0]; }
      }
    }
  }

  lemma FlushedComps(w: seq<Op>, mem: set<Ver>, levels: seq<Level>, floor: nat, t: Table)
    requires levels != [] && Sound(w, CompsOf(mem, levels), floor) && SetOf(t.entries) == mem
    ensures var levels2 := levels[0 := levels[0] + [t]];
            Sound(w, CompsOf(mem, levels2), floor) && Sound(w, CompsOf({}, levels2), floor)
  {
    var c, levels2 := CompsOf(mem, levels), levels[0 := levels[0] + [t]];
    LevelSetConcat(levels[0], [t]);
    assert LevelSet([t]) == SetOf(t.entries) by {
      LevelSetLast([t], 0);
      assert [t][..1] == [t] && [t][..0] == [];
    }
    FlushKeeps(w, c, floor);
    ReplayedTwiceKeeps(w, c, floor);
    assert CompsOf(mem, levels2) == c[1 := c[1] + c[0]];
    assert CompsOf({}, levels2) == c[0 := {}][1 := c[1] + c[0]];
  }
}
