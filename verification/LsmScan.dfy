/** Range scans: what the merged and filtered stream of versions yields (crates/storage/src/db.rs:229-262). */
module LsmScan {
  import opened Prelude
  import opened LsmSpec
  import opened LsmOrder
  import opened LsmMerge
  import opened LsmLevels
  import opened LsmState

  function Entries(level: Level): seq<seq<Ver>> { seq(|level|, i requires 0 <= i < |level| => level[i].entries) }

  predicate InRange(k: Bytes, start: Bytes, end: Option<Bytes>) { !Less(k, start) && (end.Some? ==> Less(k, end.value)) }

  /** The live pairs in range among the versions of a visible stream. */
  function Live(vis: seq<Ver>, start: Bytes, end: Option<Bytes>): seq<(Bytes, Bytes)> {
    if vis == [] then []
    else
      var x := vis[|vis| - 1];
      Live(vis[..|vis| - 1], start, end) + (if InRange(x.key, start, end) && x.value.Some? then [(x.key, x.value.value)] else [])
  }

  lemma LiveNext(done: seq<Ver>, x: Ver, start: Bytes, end: Option<Bytes>)
    ensures Live(done + [x], start, end) ==
            Live(done, start, end) + (if InRange(x.key, start, end) && x.value.Some? then [(x.key, x.value.value)] else [])
  {
    assert (done + [x])[..|done|] == done;
  }

  /** What a scan must return: ascending keys, the value each key has at `s`, and no live key of the range
      left out before the limit is reached. */
  ghost predicate ScansRight(w: seq<Op>, start: Bytes, end: Option<Bytes>, limit: nat, s: nat, out: seq<(Bytes, Bytes)>) {
    && |out| <= limit
    && (forall i, j :: 0 <= i < j < |out| ==> Less(out[i].0, out[j].0))
    && (forall i :: 0 <= i < |out| ==> InRange(out[i].0, start, end) && Newest(w, out[i].0, s) == Some(out[i].1))
    && (forall k :: InRange(k, start, end) && Newest(w, k, s).Some? ==>
          (k, Newest(w, k, s).value) in out || (0 < |out| == limit && Less(out[|out| - 1].0, k)))
  }

  lemma {:induction false} LiveFrom(vis: seq<Ver>, start: Bytes, end: Option<Bytes>, i: nat) returns (j: nat)
    requires i < |Live(vis, start, end)|
    ensures j < |vis| && InRange(vis[j].key, start, end) && vis[j].value.Some? && Live(vis, start, end)[i] == (vis[j].key, vis[j].value.value)
  {
    var init := vis[..|vis| - 1];
    if i < |Live(init, start, end)| { j := LiveFrom(init, start, end, i); } else { j := |vis| - 1; }
  }

  lemma {:induction false} LiveHas(vis: seq<Ver>, start: Bytes, end: Option<Bytes>, j: nat)
    requires j < |vis| && InRange(vis[j].key, start, end) && vis[j].value.Some?
    ensures (vis[j].key, vis[j].value.value) in Live(vis, start, end)
  {
    if j < |vis| - 1 { LiveHas(vis[..|vis| - 1], start, end, j); }
  }

  lemma {:induction false} LiveAscends(vis: seq<Ver>, start: Bytes, end: Option<Bytes>)
    requires KeysAscend(vis)
    ensures forall i, j :: 0 <= i < j < |Live(vis, start, end)| ==> Less(Live(vis, start, end)[i].0, Live(vis, start, end)[j].0)
  {
    if vis != [] {
      var init, x := vis[..|vis| - 1], vis[|vis| - 1];
      LiveAscends(init, start, end);
      var r := Live(init, start, end);
      forall i | 0 <= i < |r| ensures Less(r[i].0, x.key) {
        var j := LiveFrom(init, start, end, i);
        assert vis[j] == init[j];
      }
    }
  }

  /** A version that no other stored version of its key supersedes at `s` is the one to read. */
  lemma VisibleIsNewest(w: seq<Op>, c: Comps, floor: nat, s: nat, x: Ver)
    requires Sound(w, c, floor) && floor <= s && Held(c, x) && x.num <= s
    requires forall y :: Held(c, y) && y.key == x.key && y.num <= s ==> y.num <= x.num
    ensures Newest(w, x.key, s) == x.value
  {
    var n := NewestIdx(w, x.key, s);
    var i :| 0 <= i < |c| && x in c[i];
    assert Real(w, x);
    assert Remembers(w, c, x.key, s);
  }

  lemma UnseenIsAbsent(w: seq<Op>, c: Comps, floor: nat, k: Bytes, s: nat)
    requires Sound(w, c, floor) && floor <= s && forall y :: Held(c, y) && y.key == k ==> y.num > s
    ensures Newest(w, k, s) == None
  {
    assert Remembers(w, c, k, s);
  }

  ghost predicate StreamOf(c: Comps, merged: seq<Ver>, vis: seq<Ver>, s: nat) {
    && (forall x :: x in merged <==> Held(c, x))
    && KeysAscend(vis) && (forall x :: x in vis ==> Visible(merged, s, x))
    && forall x :: x in merged && x.num <= s ==> exists y :: y in vis && y.key == x.key
  }

  lemma VisibleValue(w: seq<Op>, c: Comps, floor: nat, merged: seq<Ver>, vis: seq<Ver>, s: nat, x: Ver)
    requires Sound(w, c, floor) && floor <= s && StreamOf(c, merged, vis, s) && x in vis
    ensures Newest(w, x.key, s) == x.value
  {
    assert Visible(merged, s, x);
    VisibleIsNewest(w, c, floor, s, x);
  }

  /** Every live key has its version in the visible stream. */
  lemma LiveKeyVisible(w: seq<Op>, c: Comps, floor: nat, merged: seq<Ver>, vis: seq<Ver>, s: nat, k: Bytes) returns (j: nat)
    requires Sound(w, c, floor) && floor <= s && StreamOf(c, merged, vis, s) && Newest(w, k, s).Some?
    ensures j < |vis| && vis[j].key == k && vis[j].value == Newest(w, k, s)
  {
    if forall y :: Held(c, y) && y.key == k ==> y.num > s {
      UnseenIsAbsent(w, c, floor, k, s);
      assert false;
    }
    var y :| Held(c, y) && y.key == k && y.num <= s;
    var x :| x in vis && x.key == k;
    j :| 0 <= j < |vis| && vis[j] == x;
    VisibleValue(w, c, floor, merged, vis, s, x);
  }

  ghost predicate Stopped(vis: seq<Ver>, done: seq<Ver>, end: Option<Bytes>, limit: nat, out: seq<(Bytes, Bytes)>) {
    || done == vis
    || (done != [] && end.Some? && !Less(done[|done| - 1].key, end.value))
    || |out| == limit
  }

  lemma ScanComplete(w: seq<Op>, c: Comps, floor: nat, merged: seq<Ver>, vis: seq<Ver>, done: seq<Ver>,
                     start: Bytes, end: Option<Bytes>, limit: nat, s: nat, out: seq<(Bytes, Bytes)>)
    requires Sound(w, c, floor) && floor <= s && StreamOf(c, merged, vis, s)
    requires done <= vis && out == Live(done, start, end) && |out| <= limit && limit >= 1 && Stopped(vis, done, end, limit, out)
    ensures ScansRight(w, start, end, limit, s, out)
  {
    LiveAscends(done, start, end);
    ScanSound(w, c, floor, merged, vis, done, start, end, s, out);
    forall k | InRange(k, start, end) && Newest(w, k, s).Some?
      ensures (k, Newest(w, k, s).value) in out || (0 < |out| == limit && Less(out[|out| - 1].0, k))
    {
      ScanCovers(w, c, floor, merged, vis, done, start, end, limit, s, out, k);
    }
  }

  /** Every pair of the scan is live. */
  lemma ScanSound(w: seq<Op>, c: Comps, floor: nat, merged: seq<Ver>, vis: seq<Ver>, done: seq<Ver>,
                  start: Bytes, end: Option<Bytes>, s: nat, out: seq<(Bytes, Bytes)>)
    requires Sound(w, c, floor) && floor <= s && StreamOf(c, merged, vis, s) && done <= vis && out == Live(done, start, end)
    ensures forall i :: 0 <= i < |out| ==> InRange(out[i].0, start, end) && Newest(w, out[i].0, s) == Some(out[i].1)
  {
    forall i | 0 <= i < |out| ensures InRange(out[i].0, start, end) && Newest(w, out[i].0, s) == Some(out[i].1) {
      var j := LiveFrom(done, start, end, i);
      assert done[j] == vis[j];
      VisibleValue(w, c, floor, merged, vis, s, vis[j]);
    }
  }

  /** Every live pair is in the scan, or lies behind its full output. */
  lemma ScanCovers(w: seq<Op>, c: Comps, floor: nat, merged: seq<Ver>, vis: seq<Ver>, done: seq<Ver>,
                   start: Bytes, end: Option<Bytes>, limit: nat, s: nat, out: seq<(Bytes, Bytes)>, k: Bytes)
    requires Sound(w, c, floor) && floor <= s && StreamOf(c, merged, vis, s) && InRange(k, start, end) && Newest(w, k, s).Some?
    requires done <= vis && out == Live(done, start, end) && limit >= 1 && Stopped(vis, done, end, limit, out)
    ensures (k, Newest(w, k, s).value) in out || (0 < |out| == limit && Less(out[|out| - 1].0, k))
  {
    var j := LiveKeyVisible(w, c, floor, merged, vis, s, k);
    if j < |done| {
      assert done[j] == vis[j];
      LiveHas(done, start, end, j);
    } else {
      LaterKey(vis, done, start, end, limit, out, j);
    }
  }

  lemma LaterKey(vis: seq<Ver>, done: seq<Ver>, start: Bytes, end: Option<Bytes>, limit: nat, out: seq<(Bytes, Bytes)>, j: nat)
    requires KeysAscend(vis) && done <= vis && out == Live(done, start, end) && limit >= 1 && Stopped(vis, done, end, limit, out)
    requires |done| <= j < |vis| && InRange(vis[j].key, start, end)
    ensures |out| == limit && Less(out[|out| - 1].0, vis[j].key)
  {
    if |out| == limit {
      var i := LiveFrom(done, start, end, |out| - 1);
      assert done[i] == vis[i];
    } else {
      var d := |done| - 1;
      assert done[d] == vis[d] && Less(vis[d].key, vis[j].key);
      LessTransitive(vis[d].key, vis[j].key, end.value);
    }
  }

  lemma MoreSources(sources: seq<seq<Ver>>, levels: seq<Level>, i: nat)
    requires i < |levels| && AllSorted(sources) && TablesOk(levels[i])
    ensures AllSorted(sources + Entries(levels[i]))
    ensures Union(sources + Entries(levels[i])) == Union(sources) + LevelSet(levels[i])
    ensures Stored(levels[..i + 1]) == Stored(levels[..i]) + LevelSet(levels[i])
  {
    var more := sources + Entries(levels[i]);
    forall x ensures x in Union(more) <==> x in Union(sources) || x in LevelSet(levels[i]) {
      if x in Union(more) {
        var j :| 0 <= j < |more| && x in more[j];
        if j < |sources| { assert x in sources[j]; } else { assert x in levels[i][j - |sources|].entries; }
      }
      if x in Union(sources) {
        var j :| 0 <= j < |sources| && x in sources[j];
        assert x in more[j];
      }
      if x in LevelSet(levels[i]) {
        var j :| 0 <= j < |levels[i]| && x in levels[i][j].entries;
        assert x in more[|sources| + j];
      }
    }
    var a, b := levels[..i + 1], levels[..i];
    forall x ensures x in Stored(a) <==> x in Stored(b) || x in LevelSet(levels[i]) {
      if x in Stored(a) {
        var j :| 0 <= j < |a| && x in LevelSet(a[j]);
        if j < i { assert x in LevelSet(b[j]); }
      }
      if x in Stored(b) {
        var j :| 0 <= j < |b| && x in LevelSet(b[j]);
        assert x in LevelSet(a[j]);
      }
      if x in LevelSet(levels[i]) { assert x in LevelSet(a[i]); }
    }
  }

  lemma FirstSource(mem: seq<Ver>, levels: seq<Level>)
    ensures Union([mem]) == SetOf(mem) + Stored(levels[..0])
  {
    assert Stored(levels[..0]) == {};
    forall x ensures x in Union([mem]) <==> x in SetOf(mem) {
      if x in SetOf(mem) { assert x in [mem][0]; }
    }
  }

  lemma HeldIsStored(mem: set<Ver>, levels: seq<Level>, x: Ver)
    ensures Held(CompsOf(mem, levels), x) <==> x in mem + Stored(levels)
  {
    var c := CompsOf(mem, levels);
    if Held(c, x) {
      var i :| 0 <= i < |c| && x in c[i];
      if i > 0 { assert x in LevelSet(levels[i - 1]); }
    }
    if x in mem { assert x in c[0]; }
    if x in Stored(levels) {
      var i :| 0 <= i < |levels| && x in LevelSet(levels[i]);
      assert x in c[i + 1];
    }
  }

  lemma StreamOfTree(c: Comps, merged: seq<Ver>, s: nat)
    requires Ascending(merged) && forall x :: x in merged <==> Held(c, x)
    ensures StreamOf(c, merged, VisibleOf(merged, None, s), s)
  {
    VisibleOfRight(merged, None, s);
  }

  /** The loop of `scan_at`: `done` is the part of the visible stream it looked at. */
  method ScanStream(merged: seq<Ver>, start: Bytes, end: Option<Bytes>, limit: nat, s: nat)
    returns (out: seq<(Bytes, Bytes)>, ghost done: seq<Ver>)
    requires limit >= 1
    ensures done <= VisibleOf(merged, None, s) && out == Live(done, start, end) && |out| <= limit
    ensures Stopped(VisibleOf(merged, None, s), done, end, limit, out)
  {
    var visible := new VisibleIter(merged, s);
    ghost var vis := visible.Rest();
    out, done := [], [];
    while true
      invariant vis == done + visible.Rest()
      invariant out == Live(done, start, end) && |out| < limit
      decreases |visible.Rest()|
    {
      var next := visible.Next();
      if next.None? { return; }
      var x := next.value;
      assert vis == (done + [x]) + visible.Rest();
      LiveNext(done, x, start, end);
      done := done + [x];
      if Less(x.key, start) { continue; }
      if end.Some? && !Less(x.key, end.value) { return; }
      if x.value.Some? {
        out := out + [(x.key, x.value.value)];
        if |out| >= limit { return; }
      }
    }
  }
}
