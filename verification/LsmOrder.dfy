/** Key order and sorted runs of versions: key ascending, sequence number descending. */
module LsmOrder {
  import opened Prelude
  import opened LsmSpec

  /** Lexicographic order of byte strings. */
  predicate Less(a: Bytes, b: Bytes) {
    b != [] && (a == [] || a[0] < b[0] || (a[0] == b[0] && Less(a[1..], b[1..])))
  }

  lemma {:induction false} LessIrreflexive(a: Bytes)
    ensures !Less(a, a)
  {
    if a != [] { LessIrreflexive(a[1..]); }
  }

  lemma {:induction false} LessTransitive(a: Bytes, b: Bytes, c: Bytes)
    requires Less(a, b) && Less(b, c)
    ensures Less(a, c)
  {
    if a != [] && a[0] == b[0] == c[0] { LessTransitive(a[1..], b[1..], c[1..]); }
  }

  lemma {:induction false} LessTotal(a: Bytes, b: Bytes)
    ensures Less(a, b) || a == b || Less(b, a)
  {
    if a != [] && b != [] && a[0] == b[0] {
      LessTotal(a[1..], b[1..]);
      if a[1..] == b[1..] { assert a == [a[0]] + a[1..] == [b[0]] + b[1..] == b; }
    }
  }

  lemma LessAsymmetric(a: Bytes, b: Bytes)
    requires Less(a, b)
    ensures !Less(b, a) && a != b
  {
    if Less(b, a) { LessTransitive(a, b, a); }
    LessIrreflexive(a);
  }

  /** `a` comes strictly before `b` in a table. */
  predicate Before(a: Ver, b: Ver) { Less(a.key, b.key) || (a.key == b.key && a.num > b.num) }

  predicate NotAfter(a: Ver, b: Ver) { Before(a, b) || (a.key == b.key && a.num == b.num) }

  lemma NotAfterTransitive(a: Ver, b: Ver, c: Ver)
    requires NotAfter(a, b) && NotAfter(b, c)
    ensures NotAfter(a, c) && (Before(a, b) || Before(b, c) ==> Before(a, c))
  {
    if Less(a.key, b.key) && Less(b.key, c.key) { LessTransitive(a.key, b.key, c.key); }
  }

  lemma NotAfterTotal(a: Ver, b: Ver)
    ensures NotAfter(a, b) || Before(b, a)
  {
    LessTotal(a.key, b.key);
  }

  predicate Sorted(s: seq<Ver>) { forall i, j :: 0 <= i < j < |s| ==> Before(s[i], s[j]) }

  predicate Ascending(s: seq<Ver>) { forall i, j :: 0 <= i < j < |s| ==> NotAfter(s[i], s[j]) }

  ghost function SetOf(s: seq<Ver>): set<Ver> { set x | x in s }

  lemma SortedAppend(s: seq<Ver>, x: Ver)
    requires Sorted(s) && (s != [] ==> Before(s[|s| - 1], x))
    ensures Sorted(s + [x])
  {
    forall i | 0 <= i < |s| ensures Before(s[i], x) {
      if i < |s| - 1 { NotAfterTransitive(s[i], s[|s| - 1], x); }
    }
  }

  lemma AscendingAppend(s: seq<Ver>, x: Ver)
    requires Ascending(s) && (s != [] ==> NotAfter(s[|s| - 1], x))
    ensures Ascending(s + [x])
  {
    forall i | 0 <= i < |s| ensures NotAfter(s[i], x) {
      if i < |s| - 1 { NotAfterTransitive(s[i], s[|s| - 1], x); }
    }
  }

  // ------------------------------------------------------------- looking a version up in a run

  /** The first version of `k` at or below `s`, by linear scan. */
  function FirstHit(run: seq<Ver>, k: Bytes, s: nat): Option<Ver> {
    if run == [] then None
    else if run[0].key == k && run[0].num <= s then Some(run[0])
    else FirstHit(run[1..], k, s)
  }

  /** In a sorted run the first hit is the newest version. */
  lemma {:induction false} FirstHitIsBest(run: seq<Ver>, k: Bytes, s: nat)
    requires Sorted(run)
    ensures IsBest(SetOf(run), k, s, FirstHit(run, k, s))
  {
    if run != [] {
      var tail := run[1..];
      FirstHitIsBest(tail, k, s);
      assert run == [run[0]] + tail;
      if run[0].key == k && run[0].num <= s {
        forall x | x in SetOf(run) && x.key == k && x.num <= s ensures x.num <= run[0].num {
          var i :| 0 <= i < |run| && run[i] == x;
          if i > 0 {
            assert Before(run[0], run[i]);
            LessIrreflexive(k);
          }
        }
      } else {
        forall x | x in SetOf(run) ensures x in SetOf(tail) || x == run[0] {}
        if FirstHit(tail, k, s).Some? { assert FirstHit(tail, k, s).value in tail; }
      }
    }
  }

  // ------------------------------------------------------------- the memtable's ordered map

  /** The run with the version put in its place; a version of the same key and number is replaced. */
  function Inserted(run: seq<Ver>, x: Ver): seq<Ver> {
    if run == [] then [x]
    else
      var k := |run| - 1;
      if Before(run[k], x) then run + [x]
      else if run[k].key == x.key && run[k].num == x.num then run[..k] + [x]
      else Inserted(run[..k], x) + [run[k]]
  }

  lemma {:induction false} InsertedSorted(run: seq<Ver>, x: Ver)
    requires Sorted(run)
    ensures Sorted(Inserted(run, x)) && Inserted(run, x) != []
    ensures forall y :: y in Inserted(run, x) <==> y == x || (y in run && !(y.key == x.key && y.num == x.num))
  {
    if run != [] {
      var k := |run| - 1;
      var init, r := run[..k], Inserted(run, x);
      assert run == init + [run[k]];
      if Before(run[k], x) {
        SortedAppend(run, x);
        forall y | y in run ensures !(y.key == x.key && y.num == x.num) {
          var i :| 0 <= i < |run| && run[i] == y;
          if i < k { NotAfterTransitive(run[i], run[k], x); }
          LessIrreflexive(x.key);
        }
      } else if run[k].key == x.key && run[k].num == x.num {
        forall i | 0 <= i < k ensures Before(run[i], x) { assert Before(run[i], run[k]); }
        SortedAppendAll(init, x);
      } else {
        InsertedSorted(init, x);
        NotAfterTotal(run[k], x);
        forall y | y in Inserted(init, x) ensures Before(y, run[k]) {
          if y != x {
            var i :| 0 <= i < k && run[i] == y;
            assert Before(run[i], run[k]);
          }
        }
        SortedAppendAll(Inserted(init, x), run[k]);
      }
    }
  }

  lemma SortedAppendAll(s: seq<Ver>, x: Ver)
    requires Sorted(s) && forall y :: y in s ==> Before(y, x)
    ensures Sorted(s + [x])
  {}
}
