/** The merge and visibility iterators (crates/storage/src/iter.rs). */
module LsmMerge {
  import opened Prelude
  import opened LsmSpec
  import opened LsmOrder

  ghost predicate AllSorted(sources: seq<seq<Ver>>) { forall i :: 0 <= i < |sources| ==> Sorted(sources[i]) }

  ghost function Union(sources: seq<seq<Ver>>): set<Ver> {
    set i, x | 0 <= i < |sources| && x in sources[i] :: x
  }

  function Total(sources: seq<seq<Ver>>): nat {
    if sources == [] then 0 else Total(sources[..|sources| - 1]) + |sources[|sources| - 1]|
  }

  lemma {:induction false} TotalDrops(sources: seq<seq<Ver>>, i: nat)
    requires i < |sources| && sources[i] != []
    ensures Total(sources[i := sources[i][1..]]) == Total(sources) - 1
  {
    var k, s2 := |sources| - 1, sources[i := sources[i][1..]];
    if i < k {
      TotalDrops(sources[..k], i);
      assert s2[..k] == sources[..k][i := sources[i][1..]];
    } else {
      assert s2[..k] == sources[..k];
    }
  }

  /** Source `i` has the globally smallest head; the earlier source wins a tie. */
  ghost predicate Smallest(sources: seq<seq<Ver>>, i: nat) {
    && i < |sources| && sources[i] != []
    && (forall j :: 0 <= j < |sources| && sources[j] != [] ==> NotAfter(sources[i][0], sources[j][0]))
    && (forall j :: 0 <= j < i && sources[j] != [] ==> Before(sources[i][0], sources[j][0]))
  }

  /** The head of source `i` is taken. */
  ghost predicate Takes(before: seq<seq<Ver>>, i: nat, x: Ver, after: seq<seq<Ver>>) {
    Smallest(before, i) && x == before[i][0] && after == before[i := before[i][1..]]
  }

  lemma SmallestOfAll(sources: seq<seq<Ver>>, i: nat, x: Ver)
    requires AllSorted(sources) && Smallest(sources, i) && x in Union(sources)
    ensures NotAfter(sources[i][0], x)
  {
    var j :| 0 <= j < |sources| && x in sources[j];
    var k :| 0 <= k < |sources[j]| && sources[j][k] == x;
    assert NotAfter(sources[i][0], sources[j][0]);
    if k > 0 {
      assert Before(sources[j][0], sources[j][k]);
      NotAfterTransitive(sources[i][0], sources[j][0], x);
    }
  }

  class MergeIter {
    var sources: seq<seq<Ver>>

    constructor (srcs: seq<seq<Ver>>)
      ensures sources == srcs
    {
      sources := srcs;
    }

    /** The globally smallest version, taken from its source; nothing when all sources are exhausted. */
    method Next() returns (r: Option<Ver>)
      modifies this
      ensures r.None? ==> sources == old(sources) && forall i :: 0 <= i < |sources| ==> sources[i] == []
      ensures r.Some? ==> exists i: nat :: Takes(old(sources), i, r.value, sources)
    {
      var best: Option<nat> := None;
      for i := 0 to |sources|
        invariant sources == old(sources)
        invariant best.None? ==> forall j :: 0 <= j < i ==> sources[j] == []
        invariant best.Some? ==>
                    && best.value < i && sources[best.value] != []
                    && (forall j :: 0 <= j < i && sources[j] != [] ==> NotAfter(sources[best.value][0], sources[j][0]))
                    && (forall j :: 0 <= j < best.value && sources[j] != [] ==> Before(sources[best.value][0], sources[j][0]))
      {
        if sources[i] == [] { continue; }
        if best.None? {
          best := Some(i);
        } else {
          var b := best.value;
          NotAfterTotal(sources[b][0], sources[i][0]);
          if Before(sources[i][0], sources[b][0]) {
            forall j | 0 <= j < i && sources[j] != [] ensures Before(sources[i][0], sources[j][0]) {
              NotAfterTransitive(sources[i][0], sources[b][0], sources[j][0]);
            }
            best := Some(i);
          }
        }
      }
      if best.None? { return None; }
      r := Some(sources[best.value][0]);
      sources := sources[best.value := sources[best.value][1..]];
      assert Takes(old(sources), best.value, r.value, sources);
    }

    /** Everything the iterator yields: ascending, and exactly the versions of the sources. */
    method Collect() returns (out: seq<Ver>)
      requires AllSorted(sources)
      modifies this
      ensures Ascending(out) && SetOf(out) == Union(old(sources))
    {
      out := [];
      var done := false;
      while !done
        invariant Collecting(old(sources), out, sources)
        invariant done ==> Union(sources) == {}
        decreases !done, Total(sources)
      {
        ghost var before := sources;
        var r := Next();
        if r.None? {
          done := true;
        } else {
          ghost var i: nat :| Takes(before, i, r.value, sources);
          Taken(before, i);
          Collects(old(sources), out, before, i);
          out := out + [r.value];
        }
      }
    }
  }

  ghost predicate Collecting(all: seq<seq<Ver>>, out: seq<Ver>, sources: seq<seq<Ver>>) {
    && AllSorted(sources) && Ascending(out)
    && (forall x, y :: x in out && y in Union(sources) ==> NotAfter(x, y))
    && SetOf(out) + Union(sources) == Union(all)
  }

  lemma Collects(all: seq<seq<Ver>>, out: seq<Ver>, sources: seq<seq<Ver>>, i: nat)
    requires Collecting(all, out, sources) && Smallest(sources, i)
    ensures Collecting(all, out + [sources[i][0]], sources[i := sources[i][1..]])
  {
    var x, s2 := sources[i][0], sources[i := sources[i][1..]];
    Taken(sources, i);
    if out != [] { assert out[|out| - 1] in out; }
    AscendingAppend(out, x);
    forall y | y in Union(s2) ensures NotAfter(x, y) { SmallestOfAll(sources, i, y); }
    assert SetOf(out + [x]) == SetOf(out) + {x};
  }

  lemma Taken(sources: seq<seq<Ver>>, i: nat)
    requires AllSorted(sources) && i < |sources| && sources[i] != []
    ensures var s2 := sources[i := sources[i][1..]];
            && AllSorted(s2) && Total(s2) < Total(sources)
            && Union(sources) == Union(s2) + {sources[i][0]} && Union(s2) <= Union(sources)
  {
    var s2 := sources[i := sources[i][1..]];
    TotalDrops(sources, i);
    assert sources[i] == [sources[i][0]] + sources[i][1..];
    forall x ensures x in Union(sources) <==> x in Union(s2) || x == sources[i][0] {
      if x in Union(sources) && x != sources[i][0] {
        var j :| 0 <= j < |sources| && x in sources[j];
        assert x in s2[j];
      }
      if x in Union(s2) {
        var j :| 0 <= j < |s2| && x in s2[j];
        assert x in sources[j];
      }
      if x == sources[i][0] { assert x in sources[i]; }
    }
  }

  // ------------------------------------------------------------- visibility

  /** What `VisibleIter` yields from a stream, when `cur` is the key it decided last. */
  function VisibleOf(s: seq<Ver>, cur: Option<Bytes>, snapshot: nat): seq<Ver> {
    if s == [] then []
    else if cur == Some(s[0].key) || s[0].num > snapshot then VisibleOf(s[1..], cur, snapshot)
    else [s[0]] + VisibleOf(s[1..], Some(s[0].key), snapshot)
  }

  class VisibleIter {
    var inner: seq<Ver>
    var currentKey: Option<Bytes>
    const snapshot: nat

    constructor (stream: seq<Ver>, s: nat)
      ensures inner == stream && currentKey == None && snapshot == s
    {
      inner, currentKey, snapshot := stream, None, s;
    }

    ghost function Rest(): seq<Ver>
      reads this
    {
      VisibleOf(inner, currentKey, snapshot)
    }

    /** The next visible version: Rest() loses its first element. */
    method Next() returns (r: Option<Ver>)
      modifies this
      ensures r.None? ==> old(Rest()) == [] && Rest() == []
      ensures r.Some? ==> old(Rest()) == [r.value] + Rest()
    {
      while inner != []
        invariant Rest() == old(Rest())
        decreases |inner|
      {
        var x := inner[0];
        inner := inner[1..];
        if currentKey == Some(x.key) || x.num > snapshot { continue; }
        currentKey := Some(x.key);
        return Some(x);
      }
      r := None;
    }
  }

  /** The newest version of its key at `snapshot` in the stream. */
  ghost predicate Visible(s: seq<Ver>, snapshot: nat, x: Ver) {
    x in s && x.num <= snapshot && forall y :: y in s && y.key == x.key && y.num <= snapshot ==> y.num <= x.num
  }

  predicate KeysAscend(s: seq<Ver>) { forall i, j :: 0 <= i < j < |s| ==> Less(s[i].key, s[j].key) }

  /** Of an ascending stream, exactly one newest visible version per key comes out, in key order. */
  lemma {:induction false} VisibleOfRight(s: seq<Ver>, cur: Option<Bytes>, snapshot: nat)
    requires Ascending(s) && (cur.Some? ==> forall x :: x in s ==> x.key == cur.value || Less(cur.value, x.key))
    ensures KeysAscend(VisibleOf(s, cur, snapshot))
    ensures forall x :: x in VisibleOf(s, cur, snapshot) ==> Visible(s, snapshot, x) && cur != Some(x.key)
    ensures forall x :: x in s && x.num <= snapshot && cur != Some(x.key) ==>
              exists y :: y in VisibleOf(s, cur, snapshot) && y.key == x.key
  {
    if s != [] {
      var tail, h := s[1..], s[0];
      assert s == [h] + tail;
      assert Ascending(tail);
      if cur == Some(h.key) || h.num > snapshot {
        VisibleOfRight(tail, cur, snapshot);
        SkippedHead(h, tail, cur, snapshot);
      } else {
        forall x | x in tail ensures x.key == h.key || Less(h.key, x.key) {
          var i :| 0 <= i < |tail| && tail[i] == x;
          assert NotAfter(s[0], s[i + 1]);
        }
        VisibleOfRight(tail, Some(h.key), snapshot);
        TakenHead(h, tail, cur, snapshot);
      }
    }
  }

  lemma SkippedHead(h: Ver, tail: seq<Ver>, cur: Option<Bytes>, snapshot: nat)
    requires cur == Some(h.key) || h.num > snapshot
    requires forall x :: x in VisibleOf(tail, cur, snapshot) ==> Visible(tail, snapshot, x) && cur != Some(x.key)
    ensures forall x :: x in VisibleOf(tail, cur, snapshot) ==> Visible([h] + tail, snapshot, x)
  {}

  lemma TakenHead(h: Ver, tail: seq<Ver>, cur: Option<Bytes>, snapshot: nat)
    requires cur != Some(h.key) && h.num <= snapshot && Ascending([h] + tail)
    requires cur.Some? ==> forall x :: x in [h] + tail ==> x.key == cur.value || Less(cur.value, x.key)
    requires forall x :: x in tail ==> x.key == h.key || Less(h.key, x.key)
    requires KeysAscend(VisibleOf(tail, Some(h.key), snapshot))
    requires forall x :: x in VisibleOf(tail, Some(h.key), snapshot) ==> Visible(tail, snapshot, x) && h.key != x.key
    ensures KeysAscend([h] + VisibleOf(tail, Some(h.key), snapshot))
    ensures forall x :: x in [h] + VisibleOf(tail, Some(h.key), snapshot) ==> Visible([h] + tail, snapshot, x) && cur != Some(x.key)
  {
    var s, vis := [h] + tail, VisibleOf(tail, Some(h.key), snapshot);
    forall y | y in s && y.key == h.key ensures y.num <= h.num {
      var i :| 0 <= i < |s| && s[i] == y;
      if i > 0 {
        assert NotAfter(s[0], s[i]);
        LessIrreflexive(h.key);
      }
    }
    assert Visible(s, snapshot, h);
    forall x | x in vis ensures Visible(s, snapshot, x) && cur != Some(x.key) && Less(h.key, x.key) {
      assert x in tail;
      if cur.Some? {
        assert h in s;
        if cur.value == x.key { LessAsymmetric(cur.value, h.key); }
      }
    }
  }
}
