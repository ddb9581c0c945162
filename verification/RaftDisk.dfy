/** Persisting what a node emits keeps its disk equal to its memory. */
module RaftDisk {
  import opened Prelude
  import opened RaftTypes
  import opened RaftLogs
  import opened RaftCore
  import opened RaftHost

  /** Entries numbered consecutively from `base + 1`. */
  ghost predicate Contiguous(es: seq<Entry>, base: Index) {
    forall i :: 0 <= i < |es| ==> es[i].index == base + 1 + i
  }

  lemma {:induction false} DropFromContiguous(es: seq<Entry>, base: Index, idx: Index)
    requires Contiguous(es, base) && idx > base
    ensures DropFrom(es, idx) == es[..Min(idx - base - 1, |es|)]
    decreases |es|
  {
    if es != [] && es[0].index < idx {
      DropFromContiguous(es[1..], base + 1, idx);
      var k := Min(idx - base - 1, |es|);
      assert es[..k] == [es[0]] + es[1..][..k - 1];
    }
  }

  lemma {:induction false} StoreConcat(es: seq<Entry>, a: seq<Entry>, b: seq<Entry>)
    ensures StoreEntries(es, a + b) == StoreEntries(StoreEntries(es, a), b)
    decreases |a|
  {
    if a == [] {
      assert a + b == b;
    } else {
      assert (a + b)[1..] == a[1..] + b;
      StoreConcat(DropFrom(es, a[0].index) + [a[0]], a[1..], b);
    }
  }

  /** A consecutive batch that continues or overwrites the stored log truncates and appends. */
  lemma {:induction false} StoreBatch(es: seq<Entry>, base: Index, batch: seq<Entry>, k: Index)
    requires Contiguous(es, base) && Contiguous(batch, k) && base <= k <= base + |es|
    ensures batch != [] ==> StoreEntries(es, batch) == es[..k - base] + batch
    decreases |batch|
  {
    if batch != [] {
      var e := batch[0];
      DropFromContiguous(es, base, e.index);
      var es2 := es[..k - base] + [e];
      assert DropFrom(es, e.index) + [e] == es2;
      if batch[1..] == [] {
        assert batch == [e];
      } else {
        StoreBatch(es2, base, batch[1..], k + 1);
        assert es2[..k + 1 - base] == es2;
        assert es2 + batch[1..] == es[..k - base] + batch;
      }
    }
  }

  lemma {:induction false} AboveContiguous(es: seq<Entry>, base: Index, idx: Index)
    requires Contiguous(es, base) && base <= idx <= base + |es|
    ensures Above(es, idx) == es[idx - base..]
    decreases |es|
  {
    if es != [] {
      if es[0].index > idx {
        assert idx == base;
        AboveAll(es, base, idx);
      } else {
        AboveContiguous(es[1..], base + 1, idx);
        assert es[idx - base..] == es[1..][idx - base - 1..];
      }
    }
  }

  lemma {:induction false} AboveAll(es: seq<Entry>, base: Index, idx: Index)
    requires Contiguous(es, base) && idx <= base
    ensures Above(es, idx) == es
    decreases |es|
  {
    if es != [] { AboveAll(es[1..], base + 1, idx); }
  }

  lemma {:induction false} ApplyConcat(s: Kvsm.State, a: seq<Entry>, b: seq<Entry>)
    ensures ApplyAll(s, a + b) == ApplyAll(ApplyAll(s, a), b)
    decreases |b|
  {
    if b == [] {
      assert a + b == a;
    } else {
      var ab := a + b;
      assert ab[..|ab| - 1] == a + b[..|b| - 1];
      ApplyConcat(s, a, b[..|b| - 1]);
    }
  }

  import Kvsm

  lemma {:induction false} BetweenIs(l: RaftLog, log: seq<Entry>, lo: Index, hi: Index)
    requires l.snapIndex <= lo <= hi <= |log| && l.entries == log[l.snapIndex..]
    ensures Between(l, lo, hi) == log[lo..hi]
    decreases hi
  {
    if lo < hi {
      BetweenIs(l, log, lo, hi - 1);
      assert log[lo..hi] == log[lo..hi - 1] + [log[hi - 1]];
    }
  }
}
