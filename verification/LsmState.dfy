/** The state of the engine as values: what is on disk, the levels, and what one compaction does to them. */
module LsmState {
  import opened Prelude
  import opened LsmSpec
  import opened LsmOrder
  import opened LsmLevels
  import opened LsmSelect
  import opened LsmMeasure

  datatype Batch = Batch(firstSeq: nat, ops: seq<Op>)

  /** What survives a crash: the manifest (with the tables it names) and the whole frames of the log. */
  datatype Disk = Disk(levels: seq<Level>, nextId: nat, lastSeq: nat, wal: seq<Batch>)

  // ------------------------------------------------------------- the log

  ghost function BatchSet(b: Batch): set<Ver> {
    set i | 0 <= i < |b.ops| :: Ver(b.ops[i].key, b.firstSeq + i, b.ops[i].value)
  }

  ghost function WalSet(wal: seq<Batch>): set<Ver> {
    if wal == [] then {} else WalSet(wal[..|wal| - 1]) + BatchSet(wal[|wal| - 1])
  }

  function LastOfWal(wal: seq<Batch>): nat {
    if wal == [] then 0
    else
      var b := wal[|wal| - 1];
      Max(LastOfWal(wal[..|wal| - 1]), if b.ops == [] then 0 else b.firstSeq + |b.ops| - 1)
  }

  function SeqOf(d: Disk): nat { Max(d.lastSeq, LastOfWal(d.wal)) }

  lemma WalAppend(wal: seq<Batch>, b: Batch)
    ensures WalSet(wal + [b]) == WalSet(wal) + BatchSet(b)
    ensures LastOfWal(wal + [b]) == Max(LastOfWal(wal), if b.ops == [] then 0 else b.firstSeq + |b.ops| - 1)
  {
    assert (wal + [b])[..|wal|] == wal;
  }

  // ------------------------------------------------------------- levels

  /** A fresh database has one empty level in memory and none in its manifest. */
  function Pad(levels: seq<Level>): seq<Level> { if levels == [] then [[]] else levels }

  ghost predicate LevelOk(level: Level, deep: bool, nextId: nat, size: seq<Ver> -> nat) {
    && TablesOk(level) && DistinctIds(level) && (deep ==> Disjoint(level))
    && forall t :: t in level ==> t.id < nextId && t.bytes == size(t.entries)
  }

  ghost predicate LevelsOk(levels: seq<Level>, nextId: nat, size: seq<Ver> -> nat) {
    levels != [] && forall i :: 0 <= i < |levels| ==> LevelOk(levels[i], i > 0, nextId, size)
  }

  ghost function CompsOf(mem: set<Ver>, levels: seq<Level>): Comps {
    [mem] + seq(|levels|, i requires 0 <= i < |levels| => LevelSet(levels[i]))
  }

  /** The versions in tables. */
  ghost function Stored(levels: seq<Level>): set<Ver> {
    set i, x | 0 <= i < |levels| && x in LevelSet(levels[i]) :: x
  }

  /** Opening the disk gives the history `w`, readable from `floor` on. */
  ghost predicate DiskOk(d: Disk, w: seq<Op>, floor: nat, size: seq<Ver> -> nat) {
    var sound := Sound(w, CompsOf(WalSet(d.wal), Pad(d.levels)), floor) && floor <= |w| == SeqOf(d);
    LevelsOk(Pad(d.levels), d.nextId, size) && sound
  }

  ghost predicate RecoversTo(d: Disk, w: seq<Op>, size: seq<Ver> -> nat) {
    exists floor :: DiskOk(d, w, floor, size)
  }

  /** A new directory: no manifest, no log, no history. */
  lemma NewDisk(nextId: nat, size: seq<Ver> -> nat)
    ensures RecoversTo(Disk([], nextId, 0, []), [], size)
  {
    assert DiskOk(Disk([], nextId, 0, []), [], 0, size);
  }

  lemma SoundFunctional(w: seq<Op>, c: Comps, floor: nat, s: set<Ver>)
    requires Sound(w, c, floor) && forall x :: x in s ==> Held(c, x)
    ensures Functional(s)
  {
    forall x, y | x in s && y in s && x.key == y.key && x.num == y.num ensures x == y {
      var i :| 0 <= i < |c| && x in c[i];
      var j :| 0 <= j < |c| && y in c[j];
      assert Real(w, x) && Real(w, y);
    }
  }

  // ------------------------------------------------------------- an empty level more

  lemma PushedLevel(w: seq<Op>, mem: set<Ver>, levels: seq<Level>, floor: nat, nextId: nat, size: seq<Ver> -> nat)
    requires LevelsOk(levels, nextId, size) && Sound(w, CompsOf(mem, levels), floor)
    ensures LevelsOk(levels + [[]], nextId, size) && Sound(w, CompsOf(mem, levels + [[]]), floor)
    ensures Stored(levels + [[]]) == Stored(levels)
  {
    var c, c2 := CompsOf(mem, levels), CompsOf(mem, levels + [[]]);
    assert LevelSet([]) == {};
    assert c2 == c + [{}];
    EmptyCompKeeps(w, c, floor);
    var l2 := levels + [[]];
    forall x ensures x in Stored(l2) <==> x in Stored(levels) {
      if x in Stored(levels) {
        var i :| 0 <= i < |levels| && x in LevelSet(levels[i]);
        assert x in LevelSet(l2[i]);
      }
      if x in Stored(l2) {
        var i :| 0 <= i < |l2| && x in LevelSet(l2[i]);
        assert x in LevelSet(levels[i]);
      }
    }
  }

  lemma EmptyCompKeeps(w: seq<Op>, c: Comps, floor: nat)
    requires Sound(w, c, floor)
    ensures Sound(w, c + [{}], floor)
  {
    var c2 := c + [{}];
    forall x ensures Held(c2, x) <==> Held(c, x) {
      if Held(c, x) {
        var i :| 0 <= i < |c| && x in c[i];
        assert x in c2[i];
      }
    }
    forall k, s: nat | floor <= s ensures Remembers(w, c2, k, s) { assert Remembers(w, c, k, s); }
  }

  /** `levels` is what the manifest lists, with empty levels after it. */
  ghost predicate Extends(levels: seq<Level>, saved: seq<Level>) {
    && |saved| <= |levels| && levels[..|saved|] == saved
    && forall i :: |saved| <= i < |levels| ==> levels[i] == []
  }

  lemma EmptyCompDrops(w: seq<Op>, c: Comps, floor: nat)
    requires Sound(w, c + [{}], floor)
    ensures Sound(w, c, floor)
  {
    var c2 := c + [{}];
    forall i | 0 <= i < |c| ensures c2[i] == c[i] {}
    forall x ensures Held(c2, x) <==> Held(c, x) {
      if Held(c, x) {
        var i :| 0 <= i < |c| && x in c[i];
        assert x in c2[i];
      }
    }
    forall k, s: nat | floor <= s ensures Remembers(w, c, k, s) { assert Remembers(w, c2, k, s); }
    forall i, x | 0 <= i < |c| && x in c[i] ensures Real(w, x) { assert x in c2[i]; }
    forall i, j, x: Ver, y: Ver | 0 <= i < j < |c| && x in c[i] && y in c[j] && x.key == y.key && x.num < y.num
      ensures y in c[i]
    {
      assert x in c2[i] && y in c2[j];
    }
  }

  /** Empty levels that were never saved do not matter. */
  lemma {:induction false} SavedEnough(w: seq<Op>, mem: set<Ver>, levels: seq<Level>, saved: seq<Level>, floor: nat, nextId: nat, size: seq<Ver> -> nat)
    requires levels != [] && Extends(levels, saved) && LevelsOk(levels, nextId, size) && Sound(w, CompsOf(mem, levels), floor)
    ensures LevelsOk(Pad(saved), nextId, size) && Sound(w, CompsOf(mem, Pad(saved)), floor)
    decreases |levels|
  {
    var k := |levels| - 1;
    if |levels| == |saved| {
      assert levels == saved;
    } else if k == 0 {
      assert levels == [[]] == Pad(saved);
    } else {
      assert LevelSet([]) == {};
      assert CompsOf(mem, levels) == CompsOf(mem, levels[..k]) + [{}];
      EmptyCompDrops(w, CompsOf(mem, levels[..k]), floor);
      SavedEnough(w, mem, levels[..k], saved, floor, nextId, size);
    }
  }

  // ------------------------------------------------------------- one compaction

  /** The level below, without the tables `ids` and with the outputs, sorted by smallest key. */
  function Lower(low: Level, ids: set<nat>, outputs: Level): (r: Level)
    requires TablesOk(low) && TablesOk(outputs)
    ensures TablesOk(r) && forall t :: t in r <==> (t in low && t.id !in ids) || t in outputs
  {
    var mixed := Select(low, ids, false) + outputs;
    assert forall t :: t in Select(low, ids, false) ==> t in low;
    SortTables(mixed)
  }

  /** Levels after the tables `srcIds` of level `l` and `dstIds` of the next were replaced by `outputs`. */
  function Swapped(levels: seq<Level>, l: nat, srcIds: set<nat>, dstIds: set<nat>, outputs: Level): seq<Level>
    requires l + 1 < |levels| && TablesOk(levels[l + 1]) && TablesOk(outputs)
  {
    levels[l := Select(levels[l], srcIds, false)][l + 1 := Lower(levels[l + 1], dstIds, outputs)]
  }

  /** The inputs of a compaction: a whole level 0 or tables of a deeper level, with what overlaps below. */
  ghost predicate Inputs(levels: seq<Level>, l: nat, srcIds: set<nat>, dstIds: set<nat>, lo: Bytes, hi: Bytes) {
    && l + 1 < |levels| && TablesOk(levels[l]) && TablesOk(levels[l + 1])
    && (l == 0 ==> forall t :: t in levels[0] ==> t.id in srcIds)
    && (forall x :: x in LevelSet(Select(levels[l], srcIds, true)) ==> !Less(x.key, lo) && !Less(hi, x.key))
    && dstIds == OverlapIds(levels[l + 1], lo, hi)
  }

  ghost predicate IsBottom(levels: seq<Level>, l: nat) { forall j :: l + 2 <= j < |levels| ==> levels[j] == [] }

  lemma {:induction false} SelectNone(level: Level, ids: set<nat>)
    requires forall t :: t in level ==> t.id in ids
    ensures Select(level, ids, false) == []
  {
    if level != [] {
      SelectNone(level[..|level| - 1], ids);
      assert level[|level| - 1] in level;
    }
  }

  lemma SourcesApart(levels: seq<Level>, l: nat, srcIds: set<nat>, nextId: nat, size: seq<Ver> -> nat)
    requires LevelsOk(levels, nextId, size) && l < |levels| && (l == 0 ==> forall t :: t in levels[0] ==> t.id in srcIds)
    ensures var src, rest := LevelSet(Select(levels[l], srcIds, true)), LevelSet(Select(levels[l], srcIds, false));
            src <= LevelSet(levels[l]) && rest == LevelSet(levels[l]) - src && KeysApart(src, rest)
  {
    assert LevelOk(levels[l], l > 0, nextId, size);
    var src, rest := Select(levels[l], srcIds, true), Select(levels[l], srcIds, false);
    SelectSets(levels[l], srcIds);
    if l == 0 {
      SelectNone(levels[0], srcIds);
      assert LevelSet(rest) == {};
    } else {
      SelectApart(levels[l], srcIds);
    }
    ApartDifference(LevelSet(levels[l]), LevelSet(src), LevelSet(rest));
  }

  lemma InputsApart(levels: seq<Level>, l: nat, srcIds: set<nat>, dstIds: set<nat>, lo: Bytes, hi: Bytes, nextId: nat, size: seq<Ver> -> nat)
    requires LevelsOk(levels, nextId, size) && Inputs(levels, l, srcIds, dstIds, lo, hi)
    ensures var src, dst := LevelSet(Select(levels[l], srcIds, true)), LevelSet(Select(levels[l + 1], dstIds, true));
            var rest := LevelSet(Select(levels[l + 1], dstIds, false));
            dst <= LevelSet(levels[l + 1]) && rest == LevelSet(levels[l + 1]) - dst && KeysApart(dst, rest) && KeysApart(src, rest)
  {
    assert LevelOk(levels[l + 1], true, nextId, size);
    var low := levels[l + 1];
    var src := LevelSet(Select(levels[l], srcIds, true));
    var dst, rest := Select(low, dstIds, true), Select(low, dstIds, false);
    SelectSets(low, dstIds);
    SelectApart(low, dstIds);
    ApartDifference(LevelSet(low), LevelSet(dst), LevelSet(rest));
    forall x, y | x in src && y in LevelSet(rest) ensures x.key != y.key {
      var t := TableWith(rest, y);
      UntouchedOutside(low, lo, hi, src, t);
      KeyInRange(t, y);
      assert x in src + LevelSet(dst);
    }
  }

  lemma CompAt(mem: set<Ver>, levels: seq<Level>, l: nat)
    requires l < |levels|
    ensures |CompsOf(mem, levels)| == |levels| + 1 && CompsOf(mem, levels)[l + 1] == LevelSet(levels[l])
  {}

  lemma BottomComps(mem: set<Ver>, levels: seq<Level>, l: nat)
    requires IsBottom(levels, l)
    ensures forall j :: l + 2 < j < |CompsOf(mem, levels)| ==> CompsOf(mem, levels)[j] == {}
  {
    forall j | l + 2 < j < |CompsOf(mem, levels)| ensures CompsOf(mem, levels)[j] == {} {
      assert levels[j - 1] == [] && LevelSet([]) == {};
    }
  }

  /** Whole keys move: neither level keeps a version of a key that takes part. */
  ghost predicate Parted(up: set<Ver>, low: set<Ver>, src: set<Ver>, dst: set<Ver>) {
    var parted := src <= up && dst <= low && KeysApart(src, up - src) && KeysApart(dst, low - dst) && KeysApart(src, low - dst);
    parted
  }

  lemma InputsParted(levels: seq<Level>, l: nat, srcIds: set<nat>, dstIds: set<nat>, lo: Bytes, hi: Bytes, nextId: nat, size: seq<Ver> -> nat)
    returns (src: set<Ver>, dst: set<Ver>)
    requires LevelsOk(levels, nextId, size) && Inputs(levels, l, srcIds, dstIds, lo, hi)
    ensures src == LevelSet(Select(levels[l], srcIds, true)) && dst == LevelSet(Select(levels[l + 1], dstIds, true))
    ensures Parted(LevelSet(levels[l]), LevelSet(levels[l + 1]), src, dst)
  {
    SourcesApart(levels, l, srcIds, nextId, size);
    InputsApart(levels, l, srcIds, dstIds, lo, hi, nextId, size);
    src, dst := LevelSet(Select(levels[l], srcIds, true)), LevelSet(Select(levels[l + 1], dstIds, true));
  }

  /** The engine's choice of tables meets the conditions under which compaction preserves meaning. */
  lemma CompactionAllowed(mem: set<Ver>, levels: seq<Level>, l: nat, src: set<Ver>, dst: set<Ver>, bottom: bool)
    requires l + 1 < |levels| && Parted(LevelSet(levels[l]), LevelSet(levels[l + 1]), src, dst) && (bottom ==> IsBottom(levels, l))
    ensures CanCompact(CompsOf(mem, levels), l + 1, src, dst, bottom)
  {
    CompAt(mem, levels, l);
    CompAt(mem, levels, l + 1);
    if bottom { BottomComps(mem, levels, l); }
  }

  lemma SwappedComps(mem: set<Ver>, levels: seq<Level>, l: nat, up: Level, low: Level, src: set<Ver>, dst: set<Ver>, minSnap: nat, bottom: bool)
    requires l + 1 < |levels| && LevelSet(up) == LevelSet(levels[l]) - src
    requires LevelSet(low) == (LevelSet(levels[l + 1]) - dst) + Survivors(src + dst, minSnap, bottom)
    ensures CompsOf(mem, levels[l := up][l + 1 := low]) == Compacted(CompsOf(mem, levels), l + 1, src, dst, minSnap, bottom)
  {
    CompAt(mem, levels, l);
    CompAt(mem, levels, l + 1);
    CompsUpdated(mem, levels, l, up, low);
  }

  lemma CompsUpdated(mem: set<Ver>, levels: seq<Level>, l: nat, up: Level, low: Level)
    requires l + 1 < |levels|
    ensures CompsOf(mem, levels[l := up][l + 1 := low]) == CompsOf(mem, levels)[l + 1 := LevelSet(up)][l + 2 := LevelSet(low)]
  {}

  /** The lower level keeps what took no part and gets the outputs. */
  lemma LowerSet(levels: seq<Level>, l: nat, srcIds: set<nat>, dstIds: set<nat>, lo: Bytes, hi: Bytes,
                 nextId: nat, size: seq<Ver> -> nat, outputs: Level)
    requires LevelsOk(levels, nextId, size) && Inputs(levels, l, srcIds, dstIds, lo, hi) && TablesOk(outputs)
    ensures LevelSet(Select(levels[l + 1], dstIds, true)) <= LevelSet(levels[l + 1])
    ensures LevelSet(Lower(levels[l + 1], dstIds, outputs)) ==
            (LevelSet(levels[l + 1]) - LevelSet(Select(levels[l + 1], dstIds, true))) + LevelSet(outputs)
  {
    InputsApart(levels, l, srcIds, dstIds, lo, hi, nextId, size);
    var mixed := Select(levels[l + 1], dstIds, false) + outputs;
    LevelSetConcat(Select(levels[l + 1], dstIds, false), outputs);
    SameLevelSet(Lower(levels[l + 1], dstIds, outputs), mixed);
  }

  lemma SwappedLevels(levels: seq<Level>, l: nat, srcIds: set<nat>, dstIds: set<nat>, lo: Bytes, hi: Bytes,
                      nextId: nat, size: seq<Ver> -> nat, outputs: Level)
    requires LevelsOk(levels, nextId, size) && Inputs(levels, l, srcIds, dstIds, lo, hi)
    requires LevelOk(outputs, true, nextId + |outputs|, size) && (forall t :: t in outputs ==> t.id >= nextId)
    requires LevelSet(outputs) <= LevelSet(Select(levels[l], srcIds, true)) + LevelSet(Select(levels[l + 1], dstIds, true))
    ensures LevelsOk(Swapped(levels, l, srcIds, dstIds, outputs), nextId + |outputs|, size)
  {
    var levels2 := Swapped(levels, l, srcIds, dstIds, outputs);
    forall i | 0 <= i < |levels2| ensures LevelOk(levels2[i], i > 0, nextId + |outputs|, size) {
      assert LevelOk(levels[i], i > 0, nextId, size);
      if i == l {
        SelectDistinct(levels[l], srcIds, false);
        if l > 0 { SelectDisjoint(levels[l], srcIds, false); }
      } else if i == l + 1 {
        LowerLevelOk(levels[l + 1], LevelSet(Select(levels[l], srcIds, true)), lo, hi, nextId, size, outputs);
      }
    }
  }

  lemma LowerLevelOk(low: Level, src: set<Ver>, lo: Bytes, hi: Bytes, nextId: nat, size: seq<Ver> -> nat, outputs: Level)
    requires LevelOk(low, true, nextId, size) && LevelOk(outputs, true, nextId + |outputs|, size)
    requires forall t :: t in outputs ==> t.id >= nextId
    requires forall x :: x in src ==> !Less(x.key, lo) && !Less(hi, x.key)
    requires LevelSet(outputs) <= src + LevelSet(Select(low, OverlapIds(low, lo, hi), true))
    ensures LevelOk(Lower(low, OverlapIds(low, lo, hi), outputs), true, nextId + |outputs|, size)
  {
    var ids := OverlapIds(low, lo, hi);
    var rest, inputs := Select(low, ids, false), src + LevelSet(Select(low, ids, true));
    SelectDisjoint(low, ids, false);
    SelectDistinct(low, ids, false);
    forall t | t in rest ensures t.Ok() && Outside(t, inputs) { UntouchedOutside(low, lo, hi, src, t); }
    MixedApart(rest, outputs, inputs);
    SortDisjoint(rest + outputs);
    SortDistinct(rest + outputs);
  }

  lemma {:induction false} SortDistinct(level: Level)
    requires TablesOk(level) && DistinctIds(level)
    ensures DistinctIds(SortTables(level))
  {
    if level != [] {
      var k := |level| - 1;
      SortDistinct(level[..k]);
      forall t | t in SortTables(level[..k]) ensures t.id != level[k].id {
        var i :| 0 <= i < k && level[..k][i] == t;
        assert level[i].id != level[k].id;
      }
      PlaceDistinct(SortTables(level[..k]), level[k]);
    }
  }

  lemma LastIdApart(level: Level, k: nat)
    requires DistinctIds(level) && k + 1 == |level|
    ensures forall u :: u in level[..k] ==> u.id != level[k].id
  {
    forall u | u in level[..k] ensures u.id != level[k].id {
      var i :| 0 <= i < k && level[i] == u;
    }
  }

  lemma {:induction false} PlaceDistinct(level: Level, t: Table)
    requires TablesOk(level) && t.Ok() && DistinctIds(level) && forall u :: u in level ==> u.id != t.id
    ensures DistinctIds(Place(level, t))
  {
    if level != [] {
      var k := |level| - 1;
      assert level == level[..k] + [level[k]];
      PlaceDistinct(level[..k], t);
      LastIdApart(level, k);
    }
  }

  lemma SwappedLighter(levels: seq<Level>, l: nat, srcIds: set<nat>, dstIds: set<nat>, lo: Bytes, hi: Bytes,
                       nextId: nat, size: seq<Ver> -> nat, outputs: Level, d: nat)
    requires LevelsOk(levels, nextId, size) && Inputs(levels, l, srcIds, dstIds, lo, hi) && TablesOk(outputs) && l < d
    requires LevelSet(outputs) <= LevelSet(Select(levels[l], srcIds, true)) + LevelSet(Select(levels[l + 1], dstIds, true))
    requires Select(levels[l], srcIds, true) != []
    ensures Weight(Swapped(levels, l, srcIds, dstIds, outputs), d) < Weight(levels, d)
  {
    var src := Select(levels[l], srcIds, true);
    SourcesApart(levels, l, srcIds, nextId, size);
    LowerSet(levels, l, srcIds, dstIds, lo, hi, nextId, size, outputs);
    assert LevelOk(levels[l], l > 0, nextId, size);
    assert src[0] in levels[l] && src[0].Ok();
    InTable(src, src[0], src[0].entries[0]);
    MovedDown(LevelSet(levels[l]), LevelSet(src), LevelSet(levels[l + 1]), LevelSet(Select(levels[l + 1], dstIds, true)),
              LevelSet(outputs), src[0].entries[0]);
    CompactionLighter(levels, d, l, Select(levels[l], srcIds, false), Lower(levels[l + 1], dstIds, outputs));
  }

  lemma MovedDown(up: set<Ver>, src: set<Ver>, low: set<Ver>, dst: set<Ver>, outs: set<Ver>, x: Ver)
    requires src <= up && x in src && dst <= low && outs <= src + dst
    ensures up - src < up && (low - dst) + outs <= low + (up - (up - src))
  {
    assert x in up && x !in up - src;
  }

  lemma SwappedStored(levels: seq<Level>, l: nat, srcIds: set<nat>, dstIds: set<nat>, outputs: Level)
    requires l + 1 < |levels| && TablesOk(levels[l + 1]) && TablesOk(outputs)
    requires LevelSet(outputs) <= LevelSet(Select(levels[l], srcIds, true)) + LevelSet(Select(levels[l + 1], dstIds, true))
    ensures Stored(Swapped(levels, l, srcIds, dstIds, outputs)) <= Stored(levels)
  {
    var levels2, rest := Swapped(levels, l, srcIds, dstIds, outputs), Select(levels[l + 1], dstIds, false);
    SelectSets(levels[l], srcIds);
    SelectSets(levels[l + 1], dstIds);
    LevelSetConcat(rest, outputs);
    SameLevelSet(Lower(levels[l + 1], dstIds, outputs), rest + outputs);
    assert LevelSet(levels2[l]) <= LevelSet(levels[l]);
    assert LevelSet(levels2[l + 1]) <= LevelSet(levels[l]) + LevelSet(levels[l + 1]);
    forall x | x in Stored(levels2) ensures x in Stored(levels) {
      var i :| 0 <= i < |levels2| && x in LevelSet(levels2[i]);
      StoredAt(levels, l, x);
      StoredAt(levels, l + 1, x);
      StoredAt(levels, i, x);
    }
  }

  lemma StoredAt(levels: seq<Level>, i: nat, x: Ver)
    requires i < |levels|
    ensures x in LevelSet(levels[i]) ==> x in Stored(levels)
  {}
}
