/** Choosing the inputs of a compaction and putting its outputs in place
    (crates/storage/src/db.rs:356-394, 480-501). */
module LsmSelect {
  import opened Prelude
  import opened LsmSpec
  import opened LsmOrder
  import opened LsmLevels

  /** The tables whose id is (or is not) in `ids`, in order. */
  function Select(level: Level, ids: set<nat>, yes: bool): (r: Level)
    ensures forall t :: t in r <==> t in level && (t.id in ids <==> yes)
  {
    if level == [] then []
    else
      var t := level[|level| - 1];
      Select(level[..|level| - 1], ids, yes) + (if (t.id in ids) == yes then [t] else [])
  }

  predicate DistinctIds(level: Level) { forall i, j :: 0 <= i < j < |level| ==> level[i].id != level[j].id }

  lemma {:induction false} SelectDisjoint(level: Level, ids: set<nat>, yes: bool)
    requires TablesOk(level) && Disjoint(level)
    ensures TablesOk(Select(level, ids, yes)) && Disjoint(Select(level, ids, yes))
  {
    if level != [] {
      var init, t := level[..|level| - 1], level[|level| - 1];
      SelectDisjoint(init, ids, yes);
      var r := Select(init, ids, yes);
      forall i | 0 <= i < |r| ensures r[i].Ok() && Precedes(r[i], t) {
        assert r[i] in init;
        var j :| 0 <= j < |init| && init[j] == r[i];
        assert Precedes(level[j], level[|level| - 1]);
      }
    }
  }

  lemma {:induction false} SelectDistinct(level: Level, ids: set<nat>, yes: bool)
    requires DistinctIds(level)
    ensures DistinctIds(Select(level, ids, yes)) && |Select(level, ids, yes)| <= |level|
  {
    if level != [] {
      var init, t := level[..|level| - 1], level[|level| - 1];
      SelectDistinct(init, ids, yes);
      var r := Select(init, ids, yes);
      forall i | 0 <= i < |r| ensures r[i].id != t.id {
        assert r[i] in init;
        var j :| 0 <= j < |init| && init[j] == r[i];
        assert level[j].id != level[|level| - 1].id;
      }
    }
  }

  lemma SelectSets(level: Level, ids: set<nat>)
    ensures LevelSet(level) == LevelSet(Select(level, ids, true)) + LevelSet(Select(level, ids, false))
  {
    var a, b := Select(level, ids, true), Select(level, ids, false);
    forall x ensures x in LevelSet(level) <==> x in LevelSet(a) || x in LevelSet(b) {
      if x in LevelSet(level) {
        var i :| 0 <= i < |level| && x in level[i].entries;
        if level[i].id in ids { InTable(a, level[i], x); } else { InTable(b, level[i], x); }
      }
      if x in LevelSet(a) { var t := TableWith(a, x); InTable(level, t, x); }
      if x in LevelSet(b) { var t := TableWith(b, x); InTable(level, t, x); }
    }
  }

  lemma InTable(level: Level, t: Table, x: Ver)
    requires t in level && x in t.entries
    ensures x in LevelSet(level)
  {
    var i :| 0 <= i < |level| && level[i] == t;
  }

  lemma TableWith(level: Level, x: Ver) returns (t: Table)
    requires x in LevelSet(level)
    ensures t in level && x in t.entries
  {
    var i :| 0 <= i < |level| && x in level[i].entries;
    t := level[i];
  }

  lemma SelectApart(level: Level, ids: set<nat>)
    requires TablesOk(level) && Disjoint(level)
    ensures KeysApart(LevelSet(Select(level, ids, true)), LevelSet(Select(level, ids, false)))
  {
    var a, b := Select(level, ids, true), Select(level, ids, false);
    forall x, y | x in LevelSet(a) && y in LevelSet(b) ensures x.key != y.key {
      var t := TableWith(a, x);
      var u := TableWith(b, y);
      var i :| 0 <= i < |level| && level[i] == t;
      var j :| 0 <= j < |level| && level[j] == u;
      DisjointKeys(level, i, j, x, y);
    }
  }

  lemma ApartDifference(all: set<Ver>, a: set<Ver>, b: set<Ver>)
    requires all == a + b && KeysApart(a, b)
    ensures b == all - a && a == all - b
  {}

  // ------------------------------------------------------------- which tables take part

  /** The oldest table of a level, the one with the smallest id. */
  method Oldest(level: Level) returns (t: Table)
    requires level != []
    ensures t in level && forall u :: u in level ==> t.id <= u.id
  {
    t := level[0];
    for i := 1 to |level|
      invariant t in level && forall j :: 0 <= j < i ==> t.id <= level[j].id
    {
      if level[i].id < t.id { t := level[i]; }
    }
  }

  /** The smallest and the largest key of the chosen tables. */
  method KeyRange(src: Level) returns (lo: Bytes, hi: Bytes)
    requires TablesOk(src) && src != []
    ensures forall x :: x in LevelSet(src) ==> !Less(x.key, lo) && !Less(hi, x.key)
    ensures (exists t :: t in src && t.MinKey() == lo) && (exists t :: t in src && t.MaxKey() == hi)
  {
    lo, hi := src[0].MinKey(), src[0].MaxKey();
    LessIrreflexive(lo);
    LessIrreflexive(hi);
    for i := 1 to |src|
      invariant forall j :: 0 <= j < i ==> !Less(src[j].MinKey(), lo) && !Less(hi, src[j].MaxKey())
      invariant (exists j :: 0 <= j < i && src[j].MinKey() == lo) && (exists j :: 0 <= j < i && src[j].MaxKey() == hi)
    {
      if Less(src[i].MinKey(), lo) {
        forall j | 0 <= j < i ensures !Less(src[j].MinKey(), src[i].MinKey()) {
          if Less(src[j].MinKey(), src[i].MinKey()) { LessTransitive(src[j].MinKey(), src[i].MinKey(), lo); }
        }
        lo := src[i].MinKey();
        LessIrreflexive(lo);
      }
      if Less(hi, src[i].MaxKey()) {
        forall j | 0 <= j < i ensures !Less(src[i].MaxKey(), src[j].MaxKey()) {
          if Less(src[i].MaxKey(), src[j].MaxKey()) { LessTransitive(hi, src[i].MaxKey(), src[j].MaxKey()); }
        }
        hi := src[i].MaxKey();
        LessIrreflexive(hi);
      }
    }
    forall x | x in LevelSet(src) ensures !Less(x.key, lo) && !Less(hi, x.key) {
      var j :| 0 <= j < |src| && x in src[j].entries;
      KeyInRange(src[j], x);
      if Less(x.key, lo) && src[j].MinKey() != x.key { LessTransitive(src[j].MinKey(), x.key, lo); }
      if Less(hi, x.key) && src[j].MaxKey() != x.key { LessTransitive(hi, x.key, src[j].MaxKey()); }
    }
  }

  predicate Overlaps(t: Table, lo: Bytes, hi: Bytes)
    requires t.Ok()
  {
    !(Less(t.MaxKey(), lo) || Less(hi, t.MinKey()))
  }

  function OverlapIds(level: Level, lo: Bytes, hi: Bytes): set<nat>
    requires TablesOk(level)
  {
    set t | t in level && Overlaps(t, lo, hi) :: t.id
  }

  lemma OverlapIdsExact(level: Level, lo: Bytes, hi: Bytes, t: Table)
    requires TablesOk(level) && DistinctIds(level) && t in level
    ensures t.id in OverlapIds(level, lo, hi) <==> Overlaps(t, lo, hi)
  {
    if t.id in OverlapIds(level, lo, hi) {
      var u :| u in level && Overlaps(u, lo, hi) && u.id == t.id;
      var i :| 0 <= i < |level| && level[i] == t;
      var j :| 0 <= j < |level| && level[j] == u;
      assert i == j;
    }
  }

  /** All keys of the set lie on one side of the table. */
  ghost predicate Outside(t: Table, s: set<Ver>)
    requires t.Ok()
  {
    (forall x :: x in s ==> Less(x.key, t.MinKey())) || (forall x :: x in s ==> Less(t.MaxKey(), x.key))
  }

  /** The table's key range meets the range of the inputs. */
  ghost predicate Touches(t: Table, src: set<Ver>)
    requires t.Ok()
  {
    (exists x :: x in src && !Less(t.MaxKey(), x.key)) && (exists y :: y in src && !Less(y.key, t.MinKey()))
  }

  lemma OverlapsTouches(t: Table, src: Level, lo: Bytes, hi: Bytes)
    requires t.Ok() && TablesOk(src) && (forall x :: x in LevelSet(src) ==> !Less(x.key, lo) && !Less(hi, x.key))
    requires (exists a :: a in src && a.MinKey() == lo) && (exists b :: b in src && b.MaxKey() == hi)
    ensures Overlaps(t, lo, hi) <==> Touches(t, LevelSet(src))
  {
    var a :| a in src && a.MinKey() == lo;
    var b :| b in src && b.MaxKey() == hi;
    InTable(src, a, a.entries[0]);
    InTable(src, b, b.entries[|b.entries| - 1]);
    if Touches(t, LevelSet(src)) {
      var x :| x in LevelSet(src) && !Less(t.MaxKey(), x.key);
      var y :| y in LevelSet(src) && !Less(y.key, t.MinKey());
      if Less(t.MaxKey(), lo) { LessNotLess(t.MaxKey(), lo, x.key); }
      if Less(hi, t.MinKey()) { NotLessLess(y.key, hi, t.MinKey()); }
    }
  }

  lemma LessNotLess(a: Bytes, b: Bytes, c: Bytes)
    requires Less(a, b) && !Less(c, b)
    ensures Less(a, c)
  {
    LessTotal(b, c);
    if Less(b, c) { LessTransitive(a, b, c); }
  }

  lemma NotLessLess(a: Bytes, b: Bytes, c: Bytes)
    requires !Less(b, a) && Less(b, c)
    ensures Less(a, c)
  {
    LessTotal(a, b);
    if Less(a, b) { LessTransitive(a, b, c); }
  }

  /** A table that takes no part lies outside all the inputs: nothing is left between them. */
  lemma UntouchedOutside(level: Level, lo: Bytes, hi: Bytes, src: set<Ver>, t: Table)
    requires TablesOk(level) && Disjoint(level) && DistinctIds(level)
    requires forall x :: x in src ==> !Less(x.key, lo) && !Less(hi, x.key)
    requires t in Select(level, OverlapIds(level, lo, hi), false)
    ensures t.Ok() && Outside(t, src + LevelSet(Select(level, OverlapIds(level, lo, hi), true)))
  {
    var ids := OverlapIds(level, lo, hi);
    var dst := LevelSet(Select(level, ids, true));
    OverlapIdsExact(level, lo, hi, t);
    if Less(hi, t.MinKey()) {
      forall x | x in src + dst ensures Less(x.key, t.MinKey()) {
        if x in src {
          NotLessLess(x.key, hi, t.MinKey());
        } else {
          var u := TableWith(Select(level, ids, true), x);
          OverlapIdsExact(level, lo, hi, u);
          InputBelow(level, u, t, hi, x);
        }
      }
    } else {
      forall x | x in src + dst ensures Less(t.MaxKey(), x.key) {
        if x in src {
          LessNotLess(t.MaxKey(), lo, x.key);
        } else {
          var u := TableWith(Select(level, ids, true), x);
          OverlapIdsExact(level, lo, hi, u);
          InputAbove(level, u, t, lo, x);
        }
      }
    }
  }

  lemma InputBelow(level: Level, u: Table, t: Table, hi: Bytes, x: Ver)
    requires TablesOk(level) && Disjoint(level) && u in level && t in level && u != t && x in u.entries
    requires Less(hi, t.MinKey()) && !Less(hi, u.MinKey())
    ensures Less(x.key, t.MinKey())
  {
    var i :| 0 <= i < |level| && level[i] == u;
    var j :| 0 <= j < |level| && level[j] == t;
    if i < j {
      PrecedesKeys(u, t, x, t.entries[0]);
    } else {
      PrecedesKeys(t, u, t.entries[0], u.entries[0]);
      LessTransitive(hi, t.MinKey(), u.MinKey());
    }
  }

  lemma InputAbove(level: Level, u: Table, t: Table, lo: Bytes, x: Ver)
    requires TablesOk(level) && Disjoint(level) && u in level && t in level && u != t && x in u.entries
    requires Less(t.MaxKey(), lo) && !Less(u.MaxKey(), lo)
    ensures Less(t.MaxKey(), x.key)
  {
    var i :| 0 <= i < |level| && level[i] == u;
    var j :| 0 <= j < |level| && level[j] == t;
    var lastT, lastU := t.entries[|t.entries| - 1], u.entries[|u.entries| - 1];
    if j < i {
      PrecedesKeys(t, u, lastT, x);
    } else {
      PrecedesKeys(u, t, lastU, lastT);
      LessTransitive(u.MaxKey(), t.MaxKey(), lo);
    }
  }

  // ------------------------------------------------------------- the outputs in place

  predicate Apart(a: Table, b: Table)
    requires a.Ok() && b.Ok()
  {
    Precedes(a, b) || Precedes(b, a)
  }

  predicate AllApart(level: Level)
    requires TablesOk(level)
  {
    forall i, j :: 0 <= i < j < |level| ==> Apart(level[i], level[j])
  }

  /** The level with the table put in its place by smallest key. */
  function Place(level: Level, t: Table): (r: Level)
    requires TablesOk(level) && t.Ok()
    ensures TablesOk(r) && |r| == |level| + 1 && forall u :: u in r <==> u in level || u == t
  {
    if level == [] then [t]
    else
      var k := |level| - 1;
      assert level == level[..k] + [level[k]];
      if Less(t.MinKey(), level[k].MinKey()) then Place(level[..k], t) + [level[k]] else level + [t]
  }

  lemma {:induction false} PlaceDisjoint(level: Level, t: Table)
    requires TablesOk(level) && t.Ok() && Disjoint(level) && forall u :: u in level ==> Apart(u, t)
    ensures Disjoint(Place(level, t))
  {
    if level != [] {
      var k := |level| - 1;
      var init, last := level[..k], level[k];
      assert last in level;
      if Less(t.MinKey(), last.MinKey()) {
        PlaceDisjoint(init, t);
        assert Precedes(t, last) by {
          if Precedes(last, t) {
            PrecedesKeys(last, t, last.entries[0], t.entries[0]);
            LessAsymmetric(t.MinKey(), last.MinKey());
          }
        }
        forall u | u in Place(init, t) ensures Precedes(u, last) {
          if u != t {
            var i :| 0 <= i < k && init[i] == u;
            assert Precedes(level[i], level[k]);
          }
        }
      } else {
        assert Precedes(last, t) by {
          if Precedes(t, last) { PrecedesKeys(t, last, t.entries[0], last.entries[0]); }
        }
        forall i | 0 <= i < k ensures Precedes(level[i], t) {
          MaxKeysAscend(level, i, k, t.MinKey());
        }
      }
    }
  }

  /** Sorting by smallest key, as `sort_by` does for tables with different smallest keys. */
  function SortTables(level: Level): (r: Level)
    requires TablesOk(level)
    ensures TablesOk(r) && |r| == |level| && forall t :: t in r <==> t in level
  {
    if level == [] then []
    else
      assert level == level[..|level| - 1] + [level[|level| - 1]];
      Place(SortTables(level[..|level| - 1]), level[|level| - 1])
  }

  lemma {:induction false} SortDisjoint(level: Level)
    requires TablesOk(level) && AllApart(level)
    ensures Disjoint(SortTables(level))
  {
    if level != [] {
      var k := |level| - 1;
      SortDisjoint(level[..k]);
      forall u | u in SortTables(level[..k]) ensures Apart(u, level[k]) {
        var i :| 0 <= i < k && level[..k][i] == u;
        assert Apart(level[i], level[k]);
      }
      PlaceDisjoint(SortTables(level[..k]), level[k]);
    }
  }

  lemma SameLevelSet(a: Level, b: Level)
    requires forall t :: t in a <==> t in b
    ensures LevelSet(a) == LevelSet(b)
  {
    forall x ensures x in LevelSet(a) <==> x in LevelSet(b) {
      if x in LevelSet(a) { var t := TableWith(a, x); InTable(b, t, x); }
      if x in LevelSet(b) { var t := TableWith(b, x); InTable(a, t, x); }
    }
  }

  lemma LevelSetConcat(a: Level, b: Level)
    ensures LevelSet(a + b) == LevelSet(a) + LevelSet(b)
  {
    forall x ensures x in LevelSet(a + b) <==> x in LevelSet(a) || x in LevelSet(b) {
      if x in LevelSet(a + b) {
        var t := TableWith(a + b, x);
        if t in a { InTable(a, t, x); } else { InTable(b, t, x); }
      }
      if x in LevelSet(a) { var t := TableWith(a, x); InTable(a + b, t, x); }
      if x in LevelSet(b) { var t := TableWith(b, x); InTable(a + b, t, x); }
    }
  }

  /** Untouched tables and outputs together form a level of disjoint tables. */
  lemma MixedApart(rest: Level, outputs: Level, inputs: set<Ver>)
    requires TablesOk(rest) && Disjoint(rest) && TablesOk(outputs) && Disjoint(outputs) && LevelSet(outputs) <= inputs
    requires forall t :: t in rest ==> t.Ok() && Outside(t, inputs)
    ensures TablesOk(rest + outputs) && AllApart(rest + outputs)
  {
    var all := rest + outputs;
    forall i, j | 0 <= i < j < |all| ensures Apart(all[i], all[j]) {
      if j < |rest| {
        assert Precedes(rest[i], rest[j]);
      } else if i >= |rest| {
        assert Precedes(outputs[i - |rest|], outputs[j - |rest|]);
      } else {
        OutsideApart(all[i], all[j], inputs);
      }
    }
  }

  lemma OutsideApart(t: Table, o: Table, inputs: set<Ver>)
    requires t.Ok() && o.Ok() && Outside(t, inputs) && SetOf(o.entries) <= inputs
    ensures Apart(t, o)
  {
    assert o.entries[0] in SetOf(o.entries) && o.entries[|o.entries| - 1] in SetOf(o.entries);
  }
}
