/** Maps listed in ascending key order: what ordered iteration yields, and why it is unique. */
module SortedMaps {
  import opened Prelude

  /** A strict total order. */
  ghost predicate Orders<K(!new)>(lt: (K, K) -> bool) {
    && Asymmetric(lt)
    && (forall x, y, z :: lt(x, y) && lt(y, z) ==> lt(x, z))
    && (forall x, y :: lt(x, y) || x == y || lt(y, x))
  }

  ghost predicate Asymmetric<K(!new)>(lt: (K, K) -> bool) { forall x, y :: lt(x, y) ==> !lt(y, x) }

  /** The pairs of the map, keys ascending. */
  ghost predicate DumpOf<K(!new), V(!new)>(s: seq<(K, V)>, m: map<K, V>, lt: (K, K) -> bool) {
    && (forall i, j :: 0 <= i < j < |s| ==> lt(s[i].0, s[j].0))
    && (forall i :: 0 <= i < |s| ==> s[i].0 in m && m[s[i].0] == s[i].1)
    && (forall k :: k in m ==> exists i :: 0 <= i < |s| && s[i].0 == k)
  }

  lemma DumpInit<K(!new), V(!new)>(s: seq<(K, V)>, m: map<K, V>, lt: (K, K) -> bool)
    requires Asymmetric(lt) && DumpOf(s, m, lt) && s != []
    ensures DumpOf(s[..|s| - 1], m - {s[|s| - 1].0}, lt)
  {
    var k := |s| - 1;
    var init, m2 := s[..k], m - {s[k].0};
    forall i | 0 <= i < k ensures init[i].0 in m2 && m2[init[i].0] == init[i].1 {
      assert lt(s[i].0, s[k].0);
    }
    forall x | x in m2 ensures exists i :: 0 <= i < |init| && init[i].0 == x {
      var i :| 0 <= i < |s| && s[i].0 == x;
      assert init[i].0 == x;
    }
  }

  lemma LastSame<K(!new), V(!new)>(a: seq<(K, V)>, b: seq<(K, V)>, m: map<K, V>, lt: (K, K) -> bool)
    requires Asymmetric(lt) && DumpOf(a, m, lt) && DumpOf(b, m, lt) && a != [] && b != []
    ensures a[|a| - 1] == b[|b| - 1]
  {
    var x, y := a[|a| - 1].0, b[|b| - 1].0;
    var i :| 0 <= i < |b| && b[i].0 == x;
    var j :| 0 <= j < |a| && a[j].0 == y;
  }

  lemma EmptyDump<K(!new), V(!new)>(a: seq<(K, V)>, m: map<K, V>, lt: (K, K) -> bool)
    requires DumpOf(a, m, lt)
    ensures a == [] <==> m == map[]
  {
    if a != [] { assert a[0].0 in m; }
    if m != map[] { var k :| k in m; }
  }

  lemma SplitLast<T>(s: seq<T>)
    requires s != []
    ensures s == s[..|s| - 1] + [s[|s| - 1]]
  {}

  /** A map has one listing. */
  lemma {:induction false} DumpDetermined<K(!new), V(!new)>(a: seq<(K, V)>, b: seq<(K, V)>, m: map<K, V>, lt: (K, K) -> bool)
    requires Asymmetric(lt) && DumpOf(a, m, lt) && DumpOf(b, m, lt)
    ensures a == b
    decreases |a|
  {
    EmptyDump(a, m, lt);
    EmptyDump(b, m, lt);
    if a != [] {
      LastSame(a, b, m, lt);
      DumpInit(a, m, lt);
      DumpInit(b, m, lt);
      DumpDetermined(a[..|a| - 1], b[..|b| - 1], m - {a[|a| - 1].0}, lt);
      SplitLast(a);
      SplitLast(b);
    }
  }

  /** Collecting a listing into a map. */
  function Load<K, V>(s: seq<(K, V)>): map<K, V> {
    if s == [] then map[] else Load(s[..|s| - 1])[s[|s| - 1].0 := s[|s| - 1].1]
  }

  lemma {:induction false} LoadBack<K(!new), V(!new)>(s: seq<(K, V)>, m: map<K, V>, lt: (K, K) -> bool)
    requires Asymmetric(lt) && DumpOf(s, m, lt)
    ensures Load(s) == m
    decreases |s|
  {
    EmptyDump(s, m, lt);
    if s != [] {
      DumpInit(s, m, lt);
      LoadBack(s[..|s| - 1], m - {s[|s| - 1].0}, lt);
      assert m == (m - {s[|s| - 1].0})[s[|s| - 1].0 := s[|s| - 1].1];
    }
  }

  /** The pair put in its place by key. */
  function Placed<K, V>(s: seq<(K, V)>, p: (K, V), lt: (K, K) -> bool): seq<(K, V)> {
    if s == [] || lt(s[|s| - 1].0, p.0) then s + [p] else Placed(s[..|s| - 1], p, lt) + [s[|s| - 1]]
  }

  lemma AppendedDump<K(!new), V(!new)>(s: seq<(K, V)>, m: map<K, V>, p: (K, V), lt: (K, K) -> bool)
    requires DumpOf(s, m, lt) && p.0 !in m && forall i :: 0 <= i < |s| ==> lt(s[i].0, p.0)
    ensures DumpOf(s + [p], m[p.0 := p.1], lt)
  {
    var r, m2 := s + [p], m[p.0 := p.1];
    forall k | k in m2 ensures exists i :: 0 <= i < |r| && r[i].0 == k {
      if k == p.0 {
        assert r[|s|].0 == k;
      } else {
        var i :| 0 <= i < |s| && s[i].0 == k;
        assert r[i].0 == k;
      }
    }
  }

  lemma {:induction false} PlacedDump<K(!new), V(!new)>(s: seq<(K, V)>, m: map<K, V>, p: (K, V), lt: (K, K) -> bool)
    requires Orders(lt) && DumpOf(s, m, lt) && p.0 !in m
    ensures DumpOf(Placed(s, p, lt), m[p.0 := p.1], lt)
    decreases |s|
  {
    if s == [] || lt(s[|s| - 1].0, p.0) {
      forall i | 0 <= i < |s| ensures lt(s[i].0, p.0) {
        if i < |s| - 1 { assert lt(s[i].0, s[|s| - 1].0); }
      }
      AppendedDump(s, m, p, lt);
    } else {
      var k, last := |s| - 1, s[|s| - 1];
      var m1 := m - {last.0};
      DumpInit(s, m, lt);
      PlacedDump(s[..k], m1, p, lt);
      var q, m2 := Placed(s[..k], p, lt), m1[p.0 := p.1];
      forall i | 0 <= i < |q| ensures lt(q[i].0, last.0) {
        assert q[i].0 in m2;
        if q[i].0 != p.0 {
          var j :| 0 <= j < |s| && s[j].0 == q[i].0;
        }
      }
      AppendedDump(q, m2, last, lt);
      assert m2[last.0 := last.1] == m[p.0 := p.1];
    }
  }

  /** Lists a map in key order. */
  method Dump<K(!new), V(!new)>(m: map<K, V>, lt: (K, K) -> bool) returns (s: seq<(K, V)>)
    requires Orders(lt)
    ensures DumpOf(s, m, lt)
  {
    s := [];
    var left := m.Keys;
    while left != {}
      invariant left <= m.Keys && DumpOf(s, m - left, lt)
      decreases |left|
    {
      var k :| k in left;
      PlacedDump(s, m - left, (k, m[k]), lt);
      s := Placed(s, (k, m[k]), lt);
      assert (m - left)[k := m[k]] == m - (left - {k});
      left := left - {k};
    }
    assert m - {} == m;
  }
}
