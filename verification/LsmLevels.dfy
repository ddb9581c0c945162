/** Tables, levels and the rewriting loop of compaction (crates/storage/src/db.rs, `compact_level`). */
module LsmLevels {
  import opened Prelude
  import opened LsmSpec
  import opened LsmOrder
  import opened LsmMerge

  /** A finished table: its entries and the file size the manifest records. */
  datatype Table = Table(id: nat, entries: seq<Ver>, bytes: nat) {
    predicate Ok() { entries != [] && Sorted(entries) }

    function MinKey(): Bytes
      requires entries != []
    {
      entries[0].key
    }

    function MaxKey(): Bytes
      requires entries != []
    {
      entries[|entries| - 1].key
    }
  }

  type Level = seq<Table>

  predicate TablesOk(level: Level) { forall i :: 0 <= i < |level| ==> level[i].Ok() }

  /** Table `a` lies entirely before table `b`. */
  predicate Precedes(a: Table, b: Table)
    requires a.Ok() && b.Ok()
  {
    Less(a.MaxKey(), b.MinKey())
  }

  predicate Disjoint(level: Level)
    requires TablesOk(level)
  {
    forall i, j :: 0 <= i < j < |level| ==> Precedes(level[i], level[j])
  }

  ghost function LevelSet(level: Level): set<Ver> {
    set i, x | 0 <= i < |level| && x in level[i].entries :: x
  }

  /** Every key of a table lies between its smallest and its largest. */
  lemma KeyInRange(t: Table, x: Ver)
    requires t.Ok() && x in t.entries
    ensures !Less(x.key, t.MinKey()) && !Less(t.MaxKey(), x.key)
    ensures t.MinKey() == x.key || Less(t.MinKey(), x.key)
    ensures t.MaxKey() == x.key || Less(x.key, t.MaxKey())
  {
    var i :| 0 <= i < |t.entries| && t.entries[i] == x;
    if i > 0 { assert Before(t.entries[0], t.entries[i]); }
    if i < |t.entries| - 1 { assert Before(t.entries[i], t.entries[|t.entries| - 1]); }
    LessIrreflexive(x.key);
    if Less(t.MinKey(), x.key) { LessAsymmetric(t.MinKey(), x.key); }
    if Less(x.key, t.MaxKey()) { LessAsymmetric(x.key, t.MaxKey()); }
  }

  lemma PrecedesKeys(a: Table, b: Table, x: Ver, y: Ver)
    requires a.Ok() && b.Ok() && Precedes(a, b) && x in a.entries && y in b.entries
    ensures Less(x.key, y.key)
  {
    KeyInRange(a, x);
    KeyInRange(b, y);
    if x.key != a.MaxKey() { LessTransitive(x.key, a.MaxKey(), b.MinKey()); }
    if y.key != b.MinKey() { LessTransitive(x.key, b.MinKey(), y.key); }
  }

  lemma DisjointKeys(level: Level, i: nat, j: nat, x: Ver, y: Ver)
    requires TablesOk(level) && Disjoint(level) && i < |level| && j < |level| && i != j
    requires x in level[i].entries && y in level[j].entries
    ensures x.key != y.key
  {
    if i < j { PrecedesKeys(level[i], level[j], x, y); } else { PrecedesKeys(level[j], level[i], y, x); }
    LessIrreflexive(x.key);
  }

  // ------------------------------------------------------------- reading one level

  /** The newest hit over all tables of level 0, which may overlap. */
  method BestOf(level: Level, k: Bytes, s: nat) returns (best: Option<Ver>)
    requires TablesOk(level)
    ensures IsBest(LevelSet(level), k, s, best)
  {
    best := None;
    for i := 0 to |level|
      invariant IsBest(LevelSet(level[..i]), k, s, best)
    {
      var hit := FirstHit(level[i].entries, k, s);
      FirstHitIsBest(level[i].entries, k, s);
      assert LevelSet(level[..i + 1]) == LevelSet(level[..i]) + SetOf(level[i].entries) by { LevelSetLast(level, i); }
      if hit.Some? && (best.None? || hit.value.num > best.value.num) {
        best := hit;
      }
    }
    assert level[..|level|] == level;
  }

  lemma LevelSetLast(level: Level, i: nat)
    requires i < |level|
    ensures LevelSet(level[..i + 1]) == LevelSet(level[..i]) + SetOf(level[i].entries)
  {
    var a, b := level[..i + 1], level[..i];
    forall x ensures x in LevelSet(a) <==> x in LevelSet(b) || x in SetOf(level[i].entries) {
      if x in LevelSet(a) {
        var j :| 0 <= j < |a| && x in a[j].entries;
        if j < i { assert x in b[j].entries; }
      }
      if x in LevelSet(b) {
        var j :| 0 <= j < |b| && x in b[j].entries;
        assert x in a[j].entries;
      }
      if x in SetOf(level[i].entries) { assert x in a[i].entries; }
    }
  }

  /** The first table that does not end before `k`, by binary search. */
  method PartitionPoint(level: Level, k: Bytes) returns (idx: nat)
    requires TablesOk(level) && Disjoint(level)
    ensures idx <= |level|
    ensures forall i :: 0 <= i < idx ==> Less(level[i].MaxKey(), k)
    ensures forall i :: idx <= i < |level| ==> !Less(level[i].MaxKey(), k)
  {
    var lo, hi := 0, |level|;
    while lo < hi
      invariant 0 <= lo <= hi <= |level|
      invariant forall i :: 0 <= i < lo ==> Less(level[i].MaxKey(), k)
      invariant forall i :: hi <= i < |level| ==> !Less(level[i].MaxKey(), k)
    {
      var mid := (lo + hi) / 2;
      if Less(level[mid].MaxKey(), k) {
        forall i | 0 <= i < mid ensures Less(level[i].MaxKey(), k) { MaxKeysAscend(level, i, mid, k); }
        lo := mid + 1;
      } else {
        forall i | mid < i < |level| ensures !Less(level[i].MaxKey(), k) {
          if Less(level[i].MaxKey(), k) { MaxKeysAscend(level, mid, i, k); }
        }
        hi := mid;
      }
    }
    idx := lo;
  }

  lemma MaxKeysAscend(level: Level, i: nat, j: nat, k: Bytes)
    requires TablesOk(level) && Disjoint(level) && i < j < |level| && Less(level[j].MaxKey(), k)
    ensures Less(level[i].MaxKey(), k)
  {
    assert Precedes(level[i], level[j]);
    PrecedesKeys(level[i], level[j], level[i].entries[|level[i].entries| - 1], level[j].entries[|level[j].entries| - 1]);
    LessTransitive(level[i].MaxKey(), level[j].MaxKey(), k);
  }

  /** The newest hit in a level of disjoint tables: only one table can hold the key. */
  method FindInLevel(level: Level, k: Bytes, s: nat) returns (best: Option<Ver>)
    requires TablesOk(level) && Disjoint(level)
    ensures IsBest(LevelSet(level), k, s, best)
  {
    var idx := PartitionPoint(level, k);
    best := None;
    if idx < |level| && !Less(k, level[idx].MinKey()) {
      best := FirstHit(level[idx].entries, k, s);
      FirstHitIsBest(level[idx].entries, k, s);
    }
    forall x | x in LevelSet(level) && x.key == k && x.num <= s ensures best.Some? && x.num <= best.value.num {
      OnlyTable(level, k, idx, x);
    }
    if best.Some? { assert best.value in level[idx].entries; }
  }

  lemma OnlyTable(level: Level, k: Bytes, idx: nat, x: Ver)
    requires TablesOk(level) && Disjoint(level) && idx <= |level| && x in LevelSet(level) && x.key == k
    requires forall i :: 0 <= i < idx ==> Less(level[i].MaxKey(), k)
    requires forall i :: idx <= i < |level| ==> !Less(level[i].MaxKey(), k)
    ensures idx < |level| && !Less(k, level[idx].MinKey()) && x in level[idx].entries
  {
    var j :| 0 <= j < |level| && x in level[j].entries;
    KeyInRange(level[j], x);
    if j > idx {
      var last := level[idx].entries[|level[idx].entries| - 1];
      PrecedesKeys(level[idx], level[j], last, x);
    }
  }

  // ------------------------------------------------------------- the output tables of a compaction

  /** Tables in key order, each after the one before it, as compaction writes them. */
  ghost predicate Chained(tables: Level, open: seq<Ver>) {
    && TablesOk(tables) && Disjoint(tables) && Sorted(open)
    && (tables != [] && open != [] ==> Less(tables[|tables| - 1].MaxKey(), open[0].key))
  }

  lemma CloseTable(tables: Level, open: seq<Ver>, id: nat, bytes: nat)
    requires Chained(tables, open) && open != []
    ensures Chained(tables + [Table(id, open, bytes)], [])
    ensures LevelSet(tables + [Table(id, open, bytes)]) == LevelSet(tables) + SetOf(open)
  {
    var t, t2 := Table(id, open, bytes), tables + [Table(id, open, bytes)];
    forall i | 0 <= i < |tables| ensures Precedes(tables[i], t) {
      var last := tables[|tables| - 1];
      if i < |tables| - 1 { MaxKeysAscend(tables, i, |tables| - 1, t.MinKey()); }
    }
    LevelSetLast(t2, |tables|);
    assert t2[..|tables|] == tables && t2[..|tables| + 1] == t2;
  }

  // ------------------------------------------------------------- garbage collection

  /** What the loop has written after `i` versions of the merged stream. */
  ghost predicate Written(merged: seq<Ver>, i: nat, minSnap: nat, bottom: bool, out: set<Ver>)
    requires i <= |merged|
  {
    && out <= SetOf(merged[..i])
    && forall j :: 0 <= j < i ==> (merged[j] in out <==> Survives(SetOf(merged), minSnap, bottom, merged[j]))
  }

  /** Whether a version at or below the snapshot floor has been seen for the key. */
  ghost predicate SeenBase(merged: seq<Ver>, i: nat, k: Bytes, minSnap: nat)
    requires i <= |merged|
  {
    exists j :: 0 <= j < i && merged[j].key == k && merged[j].num <= minSnap
  }

  /** In an ascending stream the versions of a key that come later are not newer. */
  lemma LaterNotNewer(merged: seq<Ver>, i: nat, j: nat)
    requires Ascending(merged) && i < j < |merged| && merged[i].key == merged[j].key
    ensures merged[j].num <= merged[i].num
  {
    assert NotAfter(merged[i], merged[j]);
    LessIrreflexive(merged[i].key);
  }

  /** Versions of the same key and number are the same version. */
  ghost predicate Functional(s: set<Ver>) {
    forall x, y :: x in s && y in s && x.key == y.key && x.num == y.num ==> x == y
  }

  /** A version with an older-or-equal base already seen either repeats one or is shadowed. */
  lemma ShadowedByBase(merged: seq<Ver>, i: nat, minSnap: nat, bottom: bool)
    requires Ascending(merged) && Functional(SetOf(merged)) && i < |merged|
    requires SeenBase(merged, i, merged[i].key, minSnap) && merged[i].num <= minSnap
    ensures (exists j :: 0 <= j < i && merged[j] == merged[i]) || !Survives(SetOf(merged), minSnap, bottom, merged[i])
  {
    var j :| 0 <= j < i && merged[j].key == merged[i].key && merged[j].num <= minSnap;
    LaterNotNewer(merged, j, i);
    assert merged[j] in SetOf(merged) && merged[i] in SetOf(merged);
  }

  lemma FreshBase(merged: seq<Ver>, i: nat, minSnap: nat)
    requires Ascending(merged) && i < |merged| && merged[i].num <= minSnap && !SeenBase(merged, i, merged[i].key, minSnap)
    ensures Baseline(SetOf(merged), minSnap, merged[i])
  {
    forall y | y in SetOf(merged) && y.key == merged[i].key && y.num <= minSnap ensures y.num <= merged[i].num {
      var j :| 0 <= j < |merged| && merged[j] == y;
      if j > i { LaterNotNewer(merged, i, j); }
    }
  }

  lemma WrittenNext(merged: seq<Ver>, i: nat, minSnap: nat, bottom: bool, out: set<Ver>, out2: set<Ver>)
    requires i < |merged| && Written(merged, i, minSnap, bottom, out) && out <= out2 <= out + {merged[i]}
    requires merged[i] in out2 <==> Survives(SetOf(merged), minSnap, bottom, merged[i])
    ensures Written(merged, i + 1, minSnap, bottom, out2)
  {
    assert SetOf(merged[..i + 1]) == SetOf(merged[..i]) + {merged[i]} by { assert merged[..i + 1] == merged[..i] + [merged[i]]; }
    forall j | 0 <= j < i + 1 ensures merged[j] in out2 <==> Survives(SetOf(merged), minSnap, bottom, merged[j]) {}
  }

  lemma WrittenAll(merged: seq<Ver>, minSnap: nat, bottom: bool, out: set<Ver>)
    requires Written(merged, |merged|, minSnap, bottom, out)
    ensures out == Survivors(SetOf(merged), minSnap, bottom)
  {
    assert merged[..|merged|] == merged;
  }
}
