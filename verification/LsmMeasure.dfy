/** Why `maybe_compact` ends (crates/storage/src/db.rs:325-341): every compaction moves versions down or
    drops them, and deep enough levels can never exceed their byte limit, whatever table files cost. */
module LsmMeasure {
  import opened Prelude
  import opened LsmSpec
  import opened LsmOrder
  import opened LsmLevels
  import opened LsmSelect

  function Depth(d: nat, i: nat): nat { if i <= d then d + 1 - i else 0 }

  /** Each version weighs as much as it still can sink above level `d + 1`. */
  ghost function Weight(levels: seq<Level>, d: nat): nat {
    if levels == [] then 0
    else Weight(levels[..|levels| - 1], d) + |LevelSet(levels[|levels| - 1])| * Depth(d, |levels| - 1)
  }

  lemma {:induction false} WeightPadded(levels: seq<Level>, d: nat)
    ensures Weight(levels + [[]], d) == Weight(levels, d)
  {
    var l2 := levels + [[]];
    assert l2[..|l2| - 1] == levels;
    assert LevelSet([]) == {};
  }

  lemma {:induction false} WeightUpdated(levels: seq<Level>, d: nat, p: nat, level: Level)
    requires p < |levels|
    ensures Weight(levels[p := level], d) + |LevelSet(levels[p])| * Depth(d, p) == Weight(levels, d) + |LevelSet(level)| * Depth(d, p)
  {
    var k, l2 := |levels| - 1, levels[p := level];
    if p < k {
      WeightUpdated(levels[..k], d, p, level);
      assert l2[..k] == levels[..k][p := level];
    } else {
      assert l2[..k] == levels[..k];
    }
  }

  lemma SinkLess(d: nat, p: nat, a: nat, b: nat, src: nat, a2: nat, b2: nat, w: nat, w1: nat, w2: nat)
    requires p < d && src > 0 && a2 + src == a && b2 <= b + src
    requires w1 + a * Depth(d, p) == w + a2 * Depth(d, p)
    requires w2 + b * Depth(d, p + 1) == w1 + b2 * Depth(d, p + 1)
    ensures w2 < w
  {
    var q := Depth(d, p + 1);
    assert Depth(d, p) == q + 1;
    assert a * (q + 1) == a2 * (q + 1) + src * (q + 1);
    assert b2 * q <= (b + src) * q;
  }

  /** A compaction that takes at least one version makes the tree lighter. */
  lemma CompactionLighter(levels: seq<Level>, d: nat, p: nat, upper: Level, lower: Level)
    requires p + 1 < |levels| && p < d && LevelSet(upper) < LevelSet(levels[p])
    requires LevelSet(lower) <= LevelSet(levels[p + 1]) + (LevelSet(levels[p]) - LevelSet(upper))
    ensures Weight(levels[p := upper][p + 1 := lower], d) < Weight(levels, d)
  {
    var l1 := levels[p := upper];
    WeightUpdated(levels, d, p, upper);
    WeightUpdated(l1, d, p + 1, lower);
    var all, left := LevelSet(levels[p]), LevelSet(upper);
    var src := all - left;
    assert all == left + src;
    assert src != {};
    SetSizes(LevelSet(lower), LevelSet(levels[p + 1]), src);
    SinkLess(d, p, |all|, |LevelSet(levels[p + 1])|, |src|, |left|, |LevelSet(lower)|,
             Weight(levels, d), Weight(l1, d), Weight(l1[p + 1 := lower], d));
  }

  lemma SetSizes(c: set<Ver>, a: set<Ver>, b: set<Ver>)
    requires c <= a + b
    ensures |c| <= |a| + |b|
  {
    SubsetSmaller(c, a + b);
    assert a + b == a + (b - a);
    SubsetSmaller(b - a, b);
  }

  lemma SubsetSmaller(a: set<Ver>, b: set<Ver>)
    requires a <= b
    ensures |a| <= |b|
  {
    assert b == a + (b - a);
    assert |a + (b - a)| == |a| + |b - a|;
  }

  // ------------------------------------------------------------- file sizes of tables over finitely many versions

  /** Only finitely many sorted runs exist over a finite set of versions, so their sizes are bounded. */
  lemma {:induction false} SizesBounded(v: set<Ver>, size: seq<Ver> -> nat) returns (b: nat)
    ensures forall run :: Sorted(run) && SetOf(run) <= v ==> size(run) <= b
    decreases |v|
  {
    if v == {} {
      b := size([]);
      forall run | Sorted(run) && SetOf(run) <= v ensures size(run) <= b {
        FirstInSet(run);
      }
    } else {
      var x :| x in v;
      var v2 := v - {x};
      var b1 := SizesBounded(v2, size);
      var b2 := SizesBounded(v2, run => size(Inserted(run, x)));
      b := Max(b1, b2);
      forall run | Sorted(run) && SetOf(run) <= v ensures size(run) <= b {
        if x in run {
          var i :| 0 <= i < |run| && run[i] == x;
          var without := run[..i] + run[i + 1..];
          RunWithout(run, i);
          assert size(Inserted(without, x)) <= b2;
        } else {
          assert SetOf(run) <= v2;
        }
      }
    }
  }

  lemma FirstInSet(run: seq<Ver>)
    ensures run != [] ==> run[0] in SetOf(run)
  {}

  lemma RunWithout(run: seq<Ver>, i: nat)
    requires Sorted(run) && i < |run|
    ensures var without := run[..i] + run[i + 1..];
            Sorted(without) && SetOf(without) <= SetOf(run) - {run[i]} && Inserted(without, run[i]) == run
  {
    var without := run[..i] + run[i + 1..];
    forall y | y in without ensures y in run && y != run[i] {
      var j :| 0 <= j < |without| && without[j] == y;
      var k := if j < i then j else j + 1;
      assert run[k] == y;
      if k < i { assert Before(run[k], run[i]); } else { assert Before(run[i], run[k]); }
      LessIrreflexive(y.key);
    }
    ReinsertAt(run[..i], run[i], run[i + 1..]);
    assert run[..i] + [run[i]] + run[i + 1..] == run;
  }

  lemma {:induction false} ReinsertAt(a: seq<Ver>, x: Ver, b: seq<Ver>)
    requires Sorted(a + [x] + b)
    ensures Inserted(a + b, x) == a + [x] + b
    decreases |b|
  {
    var run := a + [x] + b;
    if b == [] {
      assert a + b == a;
      if a != [] { assert Before(run[|a| - 1], run[|a|]); }
    } else {
      var k := |b| - 1;
      assert a + b == (a + b[..k]) + [b[k]] && (a + b)[..|a| + k] == a + b[..k];
      assert run[|a|] == x && run[|a| + 1 + k] == b[k];
      assert Before(x, b[k]);
      LessIrreflexive(x.key);
      if Less(x.key, b[k].key) { LessAsymmetric(x.key, b[k].key); }
      assert a + [x] + b[..k] == run[..|run| - 1];
      ReinsertAt(a, x, b[..k]);
    }
  }

  // ------------------------------------------------------------- level limits

  function Pow(m: nat, e: nat): nat { if e == 0 then 1 else m * Pow(m, e - 1) }

  lemma {:induction false} PowGrows(m: nat, e: nat)
    requires m >= 2
    ensures Pow(m, e) > e
  {
    if e > 0 {
      PowGrows(m, e - 1);
      assert m * Pow(m, e - 1) >= 2 * Pow(m, e - 1);
    }
  }

  /** The bytes of a level, as the manifest records them. */
  function LevelBytes(level: Level): nat {
    if level == [] then 0 else LevelBytes(level[..|level| - 1]) + level[|level| - 1].bytes
  }

  lemma {:induction false} BytesBounded(level: Level, b: nat)
    requires forall t :: t in level ==> t.bytes <= b
    ensures LevelBytes(level) <= b * |level|
  {
    if level != [] {
      var k := |level| - 1;
      assert level[k].bytes <= b;
      BytesBounded(level[..k], b);
      assert b * (k + 1) == b * k + b;
    }
  }

  /** Disjoint tables are no more than the versions they hold. */
  lemma {:induction false} FewTables(level: Level)
    requires TablesOk(level) && Disjoint(level)
    ensures |level| <= |LevelSet(level)|
  {
    if level != [] {
      var k := |level| - 1;
      FewTables(level[..k]);
      var x := level[k].entries[0];
      assert x !in LevelSet(level[..k]) by {
        forall i | 0 <= i < k ensures x !in level[..k][i].entries {
          if x in level[i].entries { DisjointKeys(level, i, k, x, x); }
        }
      }
      LevelSetLast(level, k);
      assert level[..k + 1] == level;
      assert x in level[k].entries;
      SubsetSmaller(LevelSet(level[..k]) + {x}, LevelSet(level));
    }
  }

  lemma MulMono(a: nat, b: nat, c: nat, d: nat)
    requires a <= c && b <= d
    ensures a * b <= c * d
  {
    assert a * b <= c * b;
    assert c * b <= c * d;
  }

  /** A level deeper than everything the versions could fill is never over its limit. */
  lemma DeepEnough(level: Level, v: set<Ver>, b: nat, size: seq<Ver> -> nat, base: nat, mult: nat, i: nat)
    requires TablesOk(level) && Disjoint(level) && LevelSet(level) <= v && base >= 1 && mult >= 2
    requires forall t :: t in level ==> t.bytes == size(t.entries)
    requires forall run :: Sorted(run) && SetOf(run) <= v ==> size(run) <= b
    requires i > b * |v|
    ensures LevelBytes(level) <= base * Pow(mult, i - 1)
  {
    forall t | t in level ensures t.bytes <= b {
      forall x | x in t.entries ensures x in v { InTable(level, t, x); }
      assert SetOf(t.entries) <= v;
    }
    BytesBounded(level, b);
    FewTables(level);
    SubsetSmaller(LevelSet(level), v);
    MulMono(b, |level|, b, |v|);
    PowGrows(mult, i - 1);
    MulMono(1, Pow(mult, i - 1), base, Pow(mult, i - 1));
  }
}
