/** What the storage engine means (crates/storage): a history of writes, and the versions of it that
    the components of the tree still hold.

    Write number `n` of the history has sequence number `n`.  The components are listed from the
    newest (the memtable) to the oldest (the deepest level). */
module LsmSpec {
  import opened Prelude

  datatype Op = Op(key: Bytes, value: Option<Bytes>)

  /** A stored version; a missing value is a tombstone. */
  datatype Ver = Ver(key: Bytes, num: nat, value: Option<Bytes>)

  // ------------------------------------------------------------- the multi-version map

  /** The last write to `k` among the first `s`, or 0. */
  function NewestIdx(w: seq<Op>, k: Bytes, s: nat): (n: nat)
    ensures n <= s && n <= |w|
    ensures n > 0 ==> w[n - 1].key == k
    ensures forall i :: n <= i < s && i < |w| ==> w[i].key != k
    decreases s
  {
    if s == 0 then 0
    else if s <= |w| && w[s - 1].key == k then s
    else NewestIdx(w, k, s - 1)
  }

  /** The value a reader at sequence number `s` must see. */
  function Newest(w: seq<Op>, k: Bytes, s: nat): Option<Bytes> {
    var n := NewestIdx(w, k, s);
    if n == 0 then None else w[n - 1].value
  }

  predicate Real(w: seq<Op>, x: Ver) { 0 < x.num <= |w| && w[x.num - 1] == Op(x.key, x.value) }

  function VerAt(w: seq<Op>, n: nat): Ver
    requires 0 < n <= |w|
  {
    Ver(w[n - 1].key, n, w[n - 1].value)
  }

  // ------------------------------------------------------------- components

  type Comps = seq<set<Ver>>

  ghost predicate Held(c: Comps, x: Ver) { exists i :: 0 <= i < |c| && x in c[i] }

  ghost predicate Truthful(w: seq<Op>, c: Comps) {
    forall i, x :: 0 <= i < |c| && x in c[i] ==> Real(w, x)
  }

  /** A component that holds an older version of a key than some deeper one holds that one too:
      a hit in a shallower component ends the search, even when a replayed log repeats versions. */
  ghost predicate Layered(c: Comps) {
    forall i, j, x, y :: 0 <= i < j < |c| && x in c[i] && y in c[j] && x.key == y.key && x.num < y.num ==> y in c[i]
  }

  /** The newest write to `k` at `s` is still held, or it is a deletion with nothing left below it. */
  ghost predicate Remembers(w: seq<Op>, c: Comps, k: Bytes, s: nat) {
    var n := NewestIdx(w, k, s);
    n == 0 || Held(c, VerAt(w, n)) || (w[n - 1].value.None? && forall x :: Held(c, x) && x.key == k ==> x.num > n)
  }

  ghost predicate RemembersFrom(w: seq<Op>, c: Comps, floor: nat) {
    forall k, s: nat :: floor <= s ==> Remembers(w, c, k, s)
  }

  /** The components answer for the history at every sequence number from `floor` on. */
  ghost predicate Sound(w: seq<Op>, c: Comps, floor: nat) {
    var sound := Truthful(w, c) && Layered(c) && RemembersFrom(w, c, floor);
    sound
  }

  // ------------------------------------------------------------- reading

  /** `r` is the newest version of `k` at `s` in one component. */
  ghost predicate IsBest(c: set<Ver>, k: Bytes, s: nat, r: Option<Ver>) {
    && (r.Some? ==> r.value in c && r.value.key == k && r.value.num <= s)
    && forall x :: x in c && x.key == k && x.num <= s ==> r.Some? && x.num <= r.value.num
  }

  /** The first component with a hit has the right answer. */
  lemma HitIsNewest(w: seq<Op>, c: Comps, floor: nat, k: Bytes, s: nat, i: nat, x: Ver)
    requires Sound(w, c, floor) && floor <= s && i < |c| && IsBest(c[i], k, s, Some(x))
    requires forall j, y :: 0 <= j < i && y in c[j] && y.key == k ==> y.num > s
    ensures Newest(w, k, s) == x.value
  {
    var n := NewestIdx(w, k, s);
    assert Real(w, x);
    assert x.num <= n;
    assert Remembers(w, c, k, s);
    var y := VerAt(w, n);
    if Held(c, y) {
      var j :| 0 <= j < |c| && y in c[j];
    }
  }

  lemma MissIsAbsent(w: seq<Op>, c: Comps, floor: nat, k: Bytes, s: nat)
    requires Sound(w, c, floor) && floor <= s
    requires forall j, y :: 0 <= j < |c| && y in c[j] && y.key == k ==> y.num > s
    ensures Newest(w, k, s) == None
  {
    var n := NewestIdx(w, k, s);
    assert Remembers(w, c, k, s);
  }

  // ------------------------------------------------------------- writing

  lemma NewestIdxAppend(w: seq<Op>, o: Op, k: Bytes, s: nat)
    ensures NewestIdx(w + [o], k, s) == if s > |w| && o.key == k then |w| + 1 else NewestIdx(w, k, s)
    decreases s
  {
    if s > 0 { NewestIdxAppend(w, o, k, s - 1); }
  }

  /** One write: the newest component gets a version above all others. */
  lemma WriteKeeps(w: seq<Op>, c: Comps, floor: nat, o: Op)
    requires Sound(w, c, floor) && c != []
    ensures Sound(w + [o], c[0 := c[0] + {Ver(o.key, |w| + 1, o.value)}], floor)
  {
    var v, w2 := Ver(o.key, |w| + 1, o.value), w + [o];
    var c2 := c[0 := c[0] + {v}];
    forall x ensures Held(c2, x) <==> Held(c, x) || x == v {
      if Held(c, x) {
        var i :| 0 <= i < |c| && x in c[i];
        assert x in c2[i];
      }
      if x == v { assert x in c2[0]; }
      if Held(c2, x) {
        var i :| 0 <= i < |c2| && x in c2[i];
        if x != v { assert x in c[i]; }
      }
    }
    forall k, s: nat | floor <= s ensures Remembers(w2, c2, k, s) {
      NewestIdxAppend(w, o, k, s);
      assert Remembers(w, c, k, s);
    }
    forall i, x | 0 <= i < |c2| && x in c2[i] ensures Real(w2, x) {
      if x != v { assert x in c[i] && Real(w, x); }
    }
    forall i, j, x: Ver, y: Ver | 0 <= i < j < |c2| && x in c2[i] && y in c2[j] && x.key == y.key && x.num < y.num
      ensures y in c2[i]
    {
      assert y in c[j] && Real(w, y);
      assert x in c[i] && y in c[i];
    }
  }

  // ------------------------------------------------------------- flushing

  /** The memtable's versions move into level 0. */
  lemma FlushKeeps(w: seq<Op>, c: Comps, floor: nat)
    requires Sound(w, c, floor) && |c| >= 2
    ensures Sound(w, c[0 := {}][1 := c[1] + c[0]], floor)
  {
    var c2 := c[0 := {}][1 := c[1] + c[0]];
    SameAll(c, c2);
    forall k, s: nat | floor <= s ensures Remembers(w, c2, k, s) {
      assert Remembers(w, c, k, s);
    }
  }

  lemma SameAll(c: Comps, c2: Comps)
    requires |c| >= 2 && (c2 == c[0 := {}][1 := c[1] + c[0]] || c2 == c[1 := c[1] + c[0]])
    ensures forall x :: Held(c2, x) <==> Held(c, x)
  {
    forall x ensures Held(c2, x) <==> Held(c, x) {
      if Held(c, x) {
        var i :| 0 <= i < |c| && x in c[i];
        assert x in c2[if i == 0 then 1 else i];
      }
      if Held(c2, x) {
        var i :| 0 <= i < |c2| && x in c2[i];
        assert x in c[i] || x in c[0];
      }
    }
  }

  /** A crash between the manifest update and the log reset: the flushed versions are in level 0 and
      replay puts them into the memtable again. */
  lemma ReplayedTwiceKeeps(w: seq<Op>, c: Comps, floor: nat)
    requires Sound(w, c, floor) && |c| >= 2
    ensures Sound(w, c[1 := c[1] + c[0]], floor)
  {
    var c2 := c[1 := c[1] + c[0]];
    SameAll(c, c2);
    forall k, s: nat | floor <= s ensures Remembers(w, c2, k, s) {
      assert Remembers(w, c, k, s);
    }
  }

  // ------------------------------------------------------------- compaction

  /** The newest version of its key at or below `minSnap` among the inputs. */
  ghost predicate Baseline(inputs: set<Ver>, minSnap: nat, x: Ver) {
    x.num <= minSnap && forall y :: y in inputs && y.key == x.key && y.num <= minSnap ==> y.num <= x.num
  }

  /** What compaction keeps of its inputs. */
  ghost predicate Survives(inputs: set<Ver>, minSnap: nat, bottom: bool, x: Ver) {
    x.num > minSnap || (Baseline(inputs, minSnap, x) && !(bottom && x.value.None?))
  }

  ghost function Survivors(inputs: set<Ver>, minSnap: nat, bottom: bool): set<Ver> {
    set x | x in inputs && Survives(inputs, minSnap, bottom, x)
  }

  ghost predicate KeysApart(a: set<Ver>, b: set<Ver>) {
    forall x, y :: x in a && y in b ==> x.key != y.key
  }

  /** Component `p` gives up `src`, component `p + 1` gives up `dst` and gets the survivors. */
  ghost predicate CanCompact(c: Comps, p: nat, src: set<Ver>, dst: set<Ver>, bottom: bool) {
    && p + 1 < |c| && src <= c[p] && dst <= c[p + 1]
    && KeysApart(src, c[p] - src) && KeysApart(dst, c[p + 1] - dst) && KeysApart(src, c[p + 1] - dst)
    && (bottom ==> forall j :: p + 1 < j < |c| ==> c[j] == {})
  }

  ghost function Compacted(c: Comps, p: nat, src: set<Ver>, dst: set<Ver>, minSnap: nat, bottom: bool): Comps
    requires p + 1 < |c|
  {
    c[p := c[p] - src][p + 1 := (c[p + 1] - dst) + Survivors(src + dst, minSnap, bottom)]
  }

  /** The retention rule, exactly: of each key the versions above `minSnap` and the newest one at or below it, except
      that a tombstone at or below `minSnap` goes when nothing lies underneath. */
  lemma SurvivorsExact(inputs: set<Ver>, minSnap: nat, bottom: bool)
    ensures var kept := Survivors(inputs, minSnap, bottom);
            && kept <= inputs && (forall x :: x in inputs && x.num > minSnap ==> x in kept)
            && (forall x, y :: x in kept && y in kept && x.key == y.key && x.num <= minSnap && y.num <= minSnap ==> x.num == y.num)
            && (bottom ==> forall x :: x in kept && x.num <= minSnap ==> x.value.Some?)
            && (forall x :: x in inputs && x !in kept ==> (bottom && x.value.None?) || ShadowedIn(kept + Tombs(inputs, minSnap, bottom), minSnap, x))
  {
    var kept := Survivors(inputs, minSnap, bottom);
    forall x | x in inputs && x !in kept && !(bottom && x.value.None?)
      ensures ShadowedIn(kept + Tombs(inputs, minSnap, bottom), minSnap, x)
    {
      var y := NewestBelow(inputs, minSnap, x);
      assert y in kept + Tombs(inputs, minSnap, bottom);
    }
  }

  /** A newer version of the same key that every reader from `minSnap` on sees instead. */
  ghost predicate ShadowedIn(s: set<Ver>, minSnap: nat, x: Ver) { exists y :: y in s && y.key == x.key && x.num < y.num <= minSnap }

  ghost function Tombs(inputs: set<Ver>, minSnap: nat, bottom: bool): set<Ver> {
    set x | x in inputs && bottom && x.value.None? && x.num <= minSnap
  }

  lemma {:induction false} NewestBelow(inputs: set<Ver>, minSnap: nat, x: Ver) returns (y: Ver)
    requires x in inputs && x.num <= minSnap
    ensures y in inputs && y.key == x.key && x.num <= y.num && Baseline(inputs, minSnap, y)
    decreases minSnap - x.num
  {
    if Baseline(inputs, minSnap, x) {
      y := x;
    } else {
      var z :| z in inputs && z.key == x.key && z.num <= minSnap && z.num > x.num;
      y := NewestBelow(inputs, minSnap, z);
    }
  }

  /** Survival is upward closed within a key. */
  lemma SurvivalUpward(inputs: set<Ver>, minSnap: nat, bottom: bool, x: Ver, y: Ver)
    requires x in inputs && y in inputs && x.key == y.key && x.num < y.num && Survives(inputs, minSnap, bottom, x)
    ensures Survives(inputs, minSnap, bottom, y)
  {}

  lemma CompactedLayered(w: seq<Op>, c: Comps, p: nat, src: set<Ver>, dst: set<Ver>, minSnap: nat, bottom: bool)
    requires Layered(c) && CanCompact(c, p, src, dst, bottom)
    ensures Layered(Compacted(c, p, src, dst, minSnap, bottom))
  {
    var c2 := Compacted(c, p, src, dst, minSnap, bottom);
    forall i, j, x: Ver, y: Ver | 0 <= i < j < |c2| && x in c2[i] && y in c2[j] && x.key == y.key && x.num < y.num
      ensures y in c2[i]
    {
      if i == p + 1 {
        SurvivorsLayered(c, p, src, dst, minSnap, bottom, j, x, y);
      } else if j == p + 1 {
        AboveSurvivors(c, p, src, dst, minSnap, bottom, i, x, y);
      } else {
        assert x in c[i] && y in c[j];
        assert y in c[i];
      }
    }
  }

  lemma AboveSurvivors(c: Comps, p: nat, src: set<Ver>, dst: set<Ver>, minSnap: nat, bottom: bool, i: nat, x: Ver, y: Ver)
    requires Layered(c) && CanCompact(c, p, src, dst, bottom) && i <= p && x.key == y.key && x.num < y.num
    requires x in Compacted(c, p, src, dst, minSnap, bottom)[i] && y in Compacted(c, p, src, dst, minSnap, bottom)[p + 1]
    ensures y in Compacted(c, p, src, dst, minSnap, bottom)[i]
  {
    assert x in c[i] && (y in c[p] || y in c[p + 1]);
    if i < p {
      assert y in c[i];
    } else {
      assert y in c[p + 1];
      assert y in c[p] && y !in src;
    }
  }

  lemma SurvivorsLayered(c: Comps, p: nat, src: set<Ver>, dst: set<Ver>, minSnap: nat, bottom: bool, j: nat, x: Ver, y: Ver)
    requires Layered(c) && CanCompact(c, p, src, dst, bottom) && p + 1 < j < |c| && x.key == y.key && x.num < y.num
    requires x in Compacted(c, p, src, dst, minSnap, bottom)[p + 1] && y in c[j]
    ensures y in Compacted(c, p, src, dst, minSnap, bottom)[p + 1]
  {
    if x in c[p + 1] - dst {
      assert y in c[p + 1] && y !in dst;
    } else {
      if x in src {
        assert y in c[p] && y in src;
      } else {
        assert y in c[p + 1] && y in dst;
      }
      SurvivalUpward(src + dst, minSnap, bottom, x, y);
    }
  }

  lemma CompactedAll(c: Comps, p: nat, src: set<Ver>, dst: set<Ver>, minSnap: nat, bottom: bool, x: Ver)
    requires p + 1 < |c| && src <= c[p] && dst <= c[p + 1]
    ensures var c2 := Compacted(c, p, src, dst, minSnap, bottom);
            && (Held(c2, x) ==> Held(c, x))
            && (Held(c, x) && !Held(c2, x) ==> x in src + dst && !Survives(src + dst, minSnap, bottom, x))
  {
    var c2 := Compacted(c, p, src, dst, minSnap, bottom);
    if Held(c2, x) {
      var i :| 0 <= i < |c2| && x in c2[i];
      if i == p + 1 { assert x in c[p] || x in c[p + 1]; } else { assert x in c[i]; }
    }
    if Held(c, x) && !Held(c2, x) {
      var i :| 0 <= i < |c| && x in c[i];
      assert x !in c2[i];
      assert x !in c2[p + 1];
    }
  }

  /** For every key and every `s` the oldest snapshot can see, nothing that a reader needs is dropped. */
  lemma CompactedRemembers(w: seq<Op>, c: Comps, floor: nat, p: nat, src: set<Ver>, dst: set<Ver>, minSnap: nat, bottom: bool, k: Bytes, s: nat)
    requires Sound(w, c, floor) && CanCompact(c, p, src, dst, bottom) && floor <= s && minSnap <= s
    ensures Remembers(w, Compacted(c, p, src, dst, minSnap, bottom), k, s)
  {
    var c2 := Compacted(c, p, src, dst, minSnap, bottom);
    assert Remembers(w, c, k, s);
    forall x | Held(c2, x) ensures Held(c, x) { CompactedAll(c, p, src, dst, minSnap, bottom, x); }
    var n := NewestIdx(w, k, s);
    if n > 0 && Held(c, VerAt(w, n)) && !Held(c2, VerAt(w, n)) {
      DroppedNewest(w, c, p, src, dst, minSnap, bottom, k, s, n);
    }
  }

  /** The only newest version that compaction drops is a deletion with nothing left below it. */
  lemma DroppedNewest(w: seq<Op>, c: Comps, p: nat, src: set<Ver>, dst: set<Ver>, minSnap: nat, bottom: bool, k: Bytes, s: nat, n: nat)
    requires Truthful(w, c) && Layered(c) && CanCompact(c, p, src, dst, bottom) && minSnap <= s && n == NewestIdx(w, k, s) > 0
    requires Held(c, VerAt(w, n)) && !Held(Compacted(c, p, src, dst, minSnap, bottom), VerAt(w, n))
    ensures w[n - 1].value.None?
    ensures forall x :: Held(Compacted(c, p, src, dst, minSnap, bottom), x) && x.key == k ==> x.num > n
  {
    var c2, v := Compacted(c, p, src, dst, minSnap, bottom), VerAt(w, n);
    CompactedAll(c, p, src, dst, minSnap, bottom, v);
    assert Baseline(src + dst, minSnap, v) by {
      forall y | y in src + dst && y.key == k && y.num <= minSnap ensures y.num <= n {
        assert Real(w, y) by { assert y in c[p] || y in c[p + 1]; }
      }
    }
    forall x | Held(c2, x) && x.key == k ensures x.num > n {
      var i :| 0 <= i < |c2| && x in c2[i];
      if x.num <= n { StaleVersionGone(w, c, p, src, dst, minSnap, bottom, v, i, x); }
    }
  }

  /** After a bottom deletion `v` is dropped, an older version of its key anywhere would have kept `v`. */
  lemma StaleVersionGone(w: seq<Op>, c: Comps, p: nat, src: set<Ver>, dst: set<Ver>, minSnap: nat, bottom: bool, v: Ver, i: nat, x: Ver)
    requires Truthful(w, c) && Layered(c) && CanCompact(c, p, src, dst, bottom) && bottom
    requires v in src + dst && v.value.None? && Baseline(src + dst, minSnap, v) && Real(w, v)
    requires i < |c| && x in Compacted(c, p, src, dst, minSnap, bottom)[i] && x.key == v.key && x.num <= v.num
    ensures v in Compacted(c, p, src, dst, minSnap, bottom)[i] && i <= p
  {
    if i == p + 1 { assert x in c[p] || x in c[p + 1]; } else { assert x in c[i]; }
    assert Real(w, x);
    if i > p {
      assert false;
    } else {
      assert v in c[p] || v in c[p + 1];
      if x.num == v.num { assert x == v; }
    }
  }

  lemma CompactKeeps(w: seq<Op>, c: Comps, floor: nat, p: nat, src: set<Ver>, dst: set<Ver>, minSnap: nat, bottom: bool)
    requires Sound(w, c, floor) && CanCompact(c, p, src, dst, bottom)
    ensures Sound(w, Compacted(c, p, src, dst, minSnap, bottom), Max(floor, minSnap))
  {
    var c2 := Compacted(c, p, src, dst, minSnap, bottom);
    CompactedLayered(w, c, p, src, dst, minSnap, bottom);
    forall k, s: nat | Max(floor, minSnap) <= s ensures Remembers(w, c2, k, s) {
      CompactedRemembers(w, c, floor, p, src, dst, minSnap, bottom, k, s);
    }
    forall i, x | 0 <= i < |c2| && x in c2[i] ensures Real(w, x) {
      if i == p + 1 { assert x in c[p] || x in c[p + 1]; } else { assert x in c[i]; }
    }
  }
}
