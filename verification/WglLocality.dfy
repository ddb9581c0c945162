/** Checking a multi-key history key by key (crates/sim/src/wgl.rs, `check_history`).

    `Explained` is linearizability of the whole history against a sequential map.  It is equivalent to
    every key's sub-history being linearizable (locality, Herlihy and Wing): an operation gets the
    latest invocation at or before it in its key's order as its point, and the keys merge by point. */
module WglLocality {
  import opened Prelude
  import opened Wgl

  type Key = k: nat | k < 256

  datatype HOp =
    | HRead(key: Key)
    | HWrite(key: Key, val: nat)
    | HCas(key: Key, expected: Option<nat>, replacement: nat)

  datatype HRes = ReadOk(value: Option<nat>) | WriteOk | CasOk(success: bool)

  datatype HRecord = HRecord(client: nat, invoke: Time, ret: Option<Time>, op: HOp, result: Option<HRes>)

  // ------------------------------------------------------------- the sequential map

  function Lookup(m: map<Key, nat>, k: Key): Option<nat> { if k in m then Some(m[k]) else None }

  /** What a single sequential map does and answers. */
  function Execute(m: map<Key, nat>, op: HOp): (map<Key, nat>, HRes) {
    match op
    case HRead(k) => (m, ReadOk(Lookup(m, k)))
    case HWrite(k, v) => (m[k := v], WriteOk)
    case HCas(k, e, v) => if Lookup(m, k) == e then (m[k := v], CasOk(true)) else (m, CasOk(false))
  }

  /** The map after the whole order, or nothing when some recorded result is wrong. */
  function RunMap(order: seq<HRecord>): Option<map<Key, nat>> {
    if order == [] then Some(map[])
    else
      var r := order[|order| - 1];
      match RunMap(order[..|order| - 1])
      case None => None
      case Some(m) =>
        var (m2, res) := Execute(m, r.op);
        if r.result.Some? && r.result.value != res then None else Some(m2)
  }

  predicate Before(x: HRecord, y: HRecord) { x.ret.Some? && x.ret.value < y.invoke }

  predicate InRealTime(order: seq<HRecord>) {
    forall a, b :: 0 <= a <= b < |order| ==> !Before(order[b], order[a])
  }

  predicate NeverReturned(rest: seq<HRecord>) { forall i :: 0 <= i < |rest| ==> rest[i].ret.None? }

  ghost predicate Explains(history: seq<HRecord>, order: seq<HRecord>, rest: seq<HRecord>) {
    && multiset(order) + multiset(rest) == multiset(history)
    && NeverReturned(rest) && InRealTime(order) && RunMap(order).Some?
  }

  /** One total order of the whole history respects real time and the sequential map. */
  ghost predicate Explained(history: seq<HRecord>) {
    exists order, rest :: Explains(history, order, rest)
  }

  // ------------------------------------------------------------- the history of one key

  /** A response is recorded exactly for operations that returned, and is of the operation's kind. */
  predicate RecordOk(r: HRecord) {
    && (r.ret.Some? <==> r.result.Some?)
    && (r.result.Some? ==> match r.op
          case HRead(_) => r.result.value.ReadOk?
          case HWrite(_, _) => r.result.value.WriteOk?
          case HCas(_, _, _) => r.result.value.CasOk?)
  }

  predicate WellFormed(history: seq<HRecord>) { forall i :: 0 <= i < |history| ==> RecordOk(history[i]) }

  datatype Prepared = Skipped | Prepared(op: POp) | Malformed(error: CheckError)

  function Prepare(r: HRecord): Prepared {
    match r.op
    case HRead(_) =>
      if r.result.None? then Skipped
      else if r.result.value.ReadOk? then Prepared(POp(r.invoke, r.ret, Read(r.result.value.value), r.client))
      else Malformed(MalformedRecord)
    case HWrite(_, v) => Prepared(POp(r.invoke, r.ret, Write(v), r.client))
    case HCas(_, e, v) =>
      if r.result.None? then Prepared(POp(r.invoke, r.ret, Cas(e, v, None), r.client))
      else if r.result.value.CasOk? then Prepared(POp(r.invoke, r.ret, Cas(e, v, Some(r.result.value.success)), r.client))
      else Malformed(MalformedCas)
  }

  /** The operations of one key, in the order of the history; pending reads are dropped. */
  function KeyOps(h: seq<HRecord>, k: Key): seq<POp> {
    if h == [] then []
    else
      var r := h[|h| - 1];
      KeyOps(h[..|h| - 1], k) + if r.op.key == k && Prepare(r).Prepared? then [Prepare(r).op] else []
  }

  /** The record an operation of key `k` came from. */
  function RecordOf(k: Key, p: POp): HRecord {
    match p.kind
    case Read(v) => HRecord(p.client, p.invoke, p.ret, HRead(k), Some(ReadOk(v)))
    case Write(v) => HRecord(p.client, p.invoke, p.ret, HWrite(k, v), if p.ret.Some? then Some(WriteOk) else None)
    case Cas(e, v, s) => HRecord(p.client, p.invoke, p.ret, HCas(k, e, v), if s.Some? then Some(CasOk(s.value)) else None)
  }

  lemma PrepareRecord(r: HRecord)
    requires RecordOk(r)
    ensures !Prepare(r).Malformed?
    ensures Prepare(r).Prepared? ==> RecordOf(r.op.key, Prepare(r).op) == r
    ensures Prepare(r).Skipped? ==> r.op.HRead? && r.ret.None?
  {}

  lemma KeyOpsConcat(a: seq<HRecord>, b: seq<HRecord>, k: Key)
    ensures KeyOps(a + b, k) == KeyOps(a, k) + KeyOps(b, k)
    decreases |b|
  {
    if b == [] {
      assert a + b == a;
    } else {
      var c := b[..|b| - 1];
      KeyOpsConcat(a, c, k);
      assert (a + b)[..|a + b| - 1] == a + c;
    }
  }

  lemma KeyOpsWithout(b: seq<HRecord>, j: nat, k: Key)
    requires j < |b|
    ensures multiset(KeyOps(b, k)) == multiset(KeyOps(b[..j] + b[j + 1..], k)) + multiset(KeyOps([b[j]], k))
  {
    assert b == b[..j] + [b[j]] + b[j + 1..];
    KeyOpsConcat(b[..j], [b[j]], k);
    KeyOpsConcat(b[..j] + [b[j]], b[j + 1..], k);
    KeyOpsConcat(b[..j], b[j + 1..], k);
  }

  /** The operations of a key depend on the history only as a multiset. */
  lemma {:induction false} KeyOpsPermuted(a: seq<HRecord>, b: seq<HRecord>, k: Key)
    requires multiset(a) == multiset(b)
    ensures multiset(KeyOps(a, k)) == multiset(KeyOps(b, k))
    decreases |a|
  {
    if a == [] {
      assert |multiset(b)| == |b|;
      assert b == [];
    } else {
      var x, a2 := a[|a| - 1], a[..|a| - 1];
      TakeLast(a);
      assert x in multiset(b);
      var j :| 0 <= j < |b| && b[j] == x;
      var b2 := b[..j] + b[j + 1..];
      TakeOut(b, j);
      CancelOne(multiset(a2), multiset(b2), x);
      KeyOpsPermuted(a2, b2, k);
      KeyOpsWithout(b, j, k);
      KeyOpsConcat(a2, [x], k);
    }
  }

  lemma {:induction false} KeyOpFrom(h: seq<HRecord>, k: Key, i: nat) returns (j: nat)
    requires i < |KeyOps(h, k)|
    ensures j < |h| && h[j].op.key == k && Prepare(h[j]) == Prepared(KeyOps(h, k)[i])
  {
    var h2 := h[..|h| - 1];
    if i < |KeyOps(h2, k)| { j := KeyOpFrom(h2, k, i); } else { j := |h| - 1; }
  }

  lemma PreparedTimes(r: HRecord)
    requires Prepare(r).Prepared?
    ensures Prepare(r).op.invoke == r.invoke && Prepare(r).op.ret == r.ret
  {}

  lemma {:induction false} KeyRealTime(order: seq<HRecord>, k: Key)
    requires InRealTime(order)
    ensures RealTime(KeyOps(order, k))
  {
    if order != [] {
      var init, r := order[..|order| - 1], order[|order| - 1];
      KeyRealTime(init, k);
      var ops, ops2 := KeyOps(init, k), KeyOps(order, k);
      forall a, b | 0 <= a <= b < |ops2| ensures !Precedes(ops2[b], ops2[a]) {
        if b == |ops| {
          PreparedTimes(r);
          if a < |ops| {
            var j := KeyOpFrom(init, k, a);
            PreparedTimes(init[j]);
            assert !Before(order[|order| - 1], order[j]);
          } else {
            assert !Before(order[|order| - 1], order[|order| - 1]);
          }
        }
      }
    }
  }

  // ------------------------------------------------------------- sequential semantics, key by key

  /** What one record does to the register of key `k`, and whether its response is right for it. */
  function StepKey(v: Option<nat>, r: HRecord, k: Key): Option<Option<nat>> {
    if r.op.key == k && Prepare(r).Prepared? then TryApply(Prepare(r).op.kind, v) else Some(v)
  }

  predicate Answers(r: HRecord, res: HRes) { r.result.Some? ==> r.result.value == res }

  /** A record is right for the map exactly when its operation is right for its key's register. */
  lemma StepKeyIsExecute(m: map<Key, nat>, r: HRecord, k: Key)
    requires RecordOk(r)
    ensures StepKey(Lookup(m, k), r, k) ==
            if Answers(r, Execute(m, r.op).1) then Some(Lookup(Execute(m, r.op).0, k))
            else if r.op.key == k then None else Some(Lookup(m, k))
  {}

  lemma RunKeyLast(order: seq<HRecord>, k: Key)
    requires order != []
    ensures var before := RunOps(None, KeyOps(order[..|order| - 1], k));
            RunOps(None, KeyOps(order, k)) == if before.None? then None else StepKey(before.value, order[|order| - 1], k)
  {
    var r, ops := order[|order| - 1], KeyOps(order[..|order| - 1], k);
    if r.op.key == k && Prepare(r).Prepared? {
      var ops2 := ops + [Prepare(r).op];
      assert ops2[..|ops2| - 1] == ops;
    } else {
      assert KeyOps(order, k) == ops;
    }
  }

  ghost predicate RegistersAccept(order: seq<HRecord>) { forall k: Key :: RunOps(None, KeyOps(order, k)).Some? }

  /** The map accepts an order exactly when the register of every key accepts its part. */
  lemma {:induction false} MapIsRegisters(order: seq<HRecord>)
    requires WellFormed(order)
    ensures RunMap(order).Some? <==> RegistersAccept(order)
    ensures RunMap(order).Some? ==> forall k: Key :: RunOps(None, KeyOps(order, k)) == Some(Lookup(RunMap(order).value, k))
  {
    if order != [] {
      var init, r := order[..|order| - 1], order[|order| - 1];
      MapIsRegisters(init);
      forall k: Key ensures
        var before := RunOps(None, KeyOps(init, k));
        RunOps(None, KeyOps(order, k)) == if before.None? then None else StepKey(before.value, r, k)
      {
        RunKeyLast(order, k);
      }
      if RunMap(init).Some? {
        forall k: Key { StepKeyIsExecute(RunMap(init).value, r, k); }
      }
    }
  }

  // ------------------------------------------------------------- from the whole history to each key

  /** A linearization of the whole history restricts to one of each key. */
  lemma WholeToKey(h: seq<HRecord>, k: Key)
    requires WellFormed(h) && Explained(h)
    ensures Linearizable(KeyOps(h, k))
  {
    var order, rest :| Explains(h, order, rest);
    PermutedWellFormed(h, order, rest);
    KeyOpsPermuted(order + rest, h, k);
    KeyOpsConcat(order, rest, k);
    KeyRealTime(order, k);
    MapIsRegisters(order);
    var ops, left := KeyOps(order, k), KeyOps(rest, k);
    forall i | 0 <= i < |left| ensures left[i].ret.None? {
      var j := KeyOpFrom(rest, k, i);
      PreparedTimes(rest[j]);
    }
    assert Completes(multiset(KeyOps(h, k)), None, ops, left);
  }

  lemma PermutedWellFormed(h: seq<HRecord>, order: seq<HRecord>, rest: seq<HRecord>)
    requires WellFormed(h) && multiset(order) + multiset(rest) == multiset(h)
    ensures WellFormed(order) && WellFormed(rest)
  {
    forall i | 0 <= i < |order| ensures RecordOk(order[i]) {
      assert order[i] in multiset(order);
      assert order[i] in multiset(h);
    }
    forall i | 0 <= i < |rest| ensures RecordOk(rest[i]) {
      assert rest[i] in multiset(rest);
      assert rest[i] in multiset(h);
    }
  }

  // ------------------------------------------------------------- from the keys to the whole history

  /** A record with its linearization point. */
  datatype Timed = Timed(r: HRecord, at: Time)

  function Records(s: seq<Timed>): seq<HRecord> { seq(|s|, i requires 0 <= i < |s| => s[i].r) }

  /** Points lie inside the operations' intervals and never decrease. */
  predicate Pointed(s: seq<Timed>) {
    && (forall i :: 0 <= i < |s| ==> s[i].r.invoke <= s[i].at && (s[i].r.ret.Some? ==> s[i].at <= s[i].r.ret.value))
    && (forall i, j :: 0 <= i < j < |s| ==> s[i].at <= s[j].at)
  }

  lemma PointedInRealTime(s: seq<Timed>)
    requires Pointed(s)
    ensures InRealTime(Records(s))
  {}

  /** The latest invocation in an order. */
  function Latest(ops: seq<POp>): Time {
    if ops == [] then 0 else var t := Latest(ops[..|ops| - 1]); if t < ops[|ops| - 1].invoke then ops[|ops| - 1].invoke else t
  }

  function Points(k: Key, ops: seq<POp>): seq<Timed> {
    if ops == [] then []
    else Points(k, ops[..|ops| - 1]) + [Timed(RecordOf(k, ops[|ops| - 1]), Latest(ops))]
  }

  lemma {:induction false} LatestIs(ops: seq<POp>) returns (j: nat)
    requires ops != []
    ensures j < |ops| && Latest(ops) == ops[j].invoke
    ensures forall i :: 0 <= i < |ops| ==> ops[i].invoke <= Latest(ops)
  {
    var k := |ops| - 1;
    if k == 0 {
      j := 0;
    } else {
      j := LatestIs(ops[..k]);
      if Latest(ops[..k]) < ops[k].invoke { j := k; }
    }
  }

  lemma {:induction false} PointsArePointed(k: Key, ops: seq<POp>)
    requires RealTime(ops)
    ensures |Points(k, ops)| == |ops| && Pointed(Points(k, ops))
    ensures forall i :: 0 <= i < |ops| ==> Points(k, ops)[i].at <= Latest(ops)
  {
    if ops != [] {
      var m := |ops| - 1;
      PointsArePointed(k, ops[..m]);
      var j := LatestIs(ops);
      assert !Precedes(ops[m], ops[j]);
      PointedLast(Points(k, ops[..m]), Timed(RecordOf(k, ops[m]), Latest(ops)));
    }
  }

  lemma PointedLast(s: seq<Timed>, x: Timed)
    requires Pointed(s) && forall i :: 0 <= i < |s| ==> s[i].at <= x.at
    requires x.r.invoke <= x.at && (x.r.ret.Some? ==> x.at <= x.r.ret.value)
    ensures Pointed(s + [x])
  {}

  function Merge(a: seq<Timed>, b: seq<Timed>): seq<Timed>
    decreases |a| + |b|
  {
    if a == [] then b
    else if b == [] then a
    else if a[|a| - 1].at <= b[|b| - 1].at then Merge(a, b[..|b| - 1]) + [b[|b| - 1]]
    else Merge(a[..|a| - 1], b) + [a[|a| - 1]]
  }

  lemma {:induction false} MergeMultiset(a: seq<Timed>, b: seq<Timed>)
    ensures multiset(Merge(a, b)) == multiset(a) + multiset(b)
    decreases |a| + |b|
  {
    if a != [] && b != [] {
      if a[|a| - 1].at <= b[|b| - 1].at {
        MergeMultiset(a, b[..|b| - 1]);
        TakeLast(b);
      } else {
        MergeMultiset(a[..|a| - 1], b);
        TakeLast(a);
      }
    }
  }

  predicate UpTo(s: seq<Timed>, t: Time) { forall i :: 0 <= i < |s| ==> s[i].at <= t }

  lemma PointedInit(s: seq<Timed>)
    requires Pointed(s) && s != []
    ensures Pointed(s[..|s| - 1]) && UpTo(s[..|s| - 1], s[|s| - 1].at)
  {}

  /** Two orders by point, neither empty, whose later end is `x`. */
  lemma MergeStep(a: seq<Timed>, b: seq<Timed>, x: Timed)
    requires Pointed(Merge(a, b)) && x.r.invoke <= x.at && (x.r.ret.Some? ==> x.at <= x.r.ret.value)
    requires UpTo(a, x.at) && UpTo(b, x.at)
    ensures Pointed(Merge(a, b) + [x])
  {
    MergeMultiset(a, b);
    LastIsLatest(Merge(a, b), a, b, x);
  }

  lemma {:induction false} MergePointed(a: seq<Timed>, b: seq<Timed>)
    requires Pointed(a) && Pointed(b)
    ensures Pointed(Merge(a, b))
    decreases |a| + |b|
  {
    if a != [] && b != [] {
      var i, j := |a| - 1, |b| - 1;
      if a[i].at <= b[j].at {
        PointedInit(b);
        MergePointed(a, b[..j]);
        MergeStep(a, b[..j], b[j]);
      } else {
        PointedInit(a);
        MergePointed(a[..i], b);
        MergeStep(a[..i], b, a[i]);
      }
    }
  }

  lemma LastIsLatest(s: seq<Timed>, a: seq<Timed>, b: seq<Timed>, x: Timed)
    requires Pointed(s) && multiset(s) == multiset(a) + multiset(b)
    requires UpTo(a, x.at) && UpTo(b, x.at)
    requires x.r.invoke <= x.at && (x.r.ret.Some? ==> x.at <= x.r.ret.value)
    ensures Pointed(s + [x])
  {
    forall i | 0 <= i < |s| ensures s[i].at <= x.at {
      assert s[i] in multiset(s);
      assert s[i] in multiset(a) || s[i] in multiset(b);
    }
  }

  predicate OfKey(s: seq<Timed>, lo: nat, hi: nat) { forall i :: 0 <= i < |s| ==> lo <= s[i].r.op.key < hi }

  lemma {:induction false} NoKeyOps(s: seq<Timed>, lo: nat, hi: nat, k: Key)
    requires OfKey(s, lo, hi) && !(lo <= k < hi)
    ensures KeyOps(Records(s), k) == []
  {
    if s != [] {
      NoKeyOps(s[..|s| - 1], lo, hi, k);
      assert Records(s)[..|s| - 1] == Records(s[..|s| - 1]);
    }
  }

  lemma KeyOpsLast(s: seq<Timed>, x: Timed, k: Key)
    ensures KeyOps(Records(s + [x]), k) ==
            KeyOps(Records(s), k) + if x.r.op.key == k && Prepare(x.r).Prepared? then [Prepare(x.r).op] else []
  {
    assert Records(s + [x])[..|s|] == Records(s);
  }

  /** Merging disjoint keys leaves the order of each key as it was. */
  lemma {:induction false} MergeKeyOps(a: seq<Timed>, b: seq<Timed>, mid: nat, hi: nat, k: Key)
    requires OfKey(a, 0, mid) && OfKey(b, mid, hi)
    ensures KeyOps(Records(Merge(a, b)), k) == if k < mid then KeyOps(Records(a), k) else KeyOps(Records(b), k)
    decreases |a| + |b|
  {
    if a == [] {
      if k < mid { NoKeyOps(b, mid, hi, k); }
    } else if b == [] {
      if k >= mid { NoKeyOps(a, 0, mid, k); }
    } else {
      var i, j := |a| - 1, |b| - 1;
      assert a == a[..i] + [a[i]] && b == b[..j] + [b[j]];
      if a[i].at <= b[j].at {
        MergeKeyOps(a, b[..j], mid, hi, k);
        KeyOpsLast(Merge(a, b[..j]), b[j], k);
        KeyOpsLast(b[..j], b[j], k);
      } else {
        MergeKeyOps(a[..i], b, mid, hi, k);
        KeyOpsLast(Merge(a[..i], b), a[i], k);
        KeyOpsLast(a[..i], a[i], k);
      }
    }
  }

  lemma {:induction false} MergeRecords(a: seq<Timed>, b: seq<Timed>)
    ensures multiset(Records(Merge(a, b))) == multiset(Records(a)) + multiset(Records(b))
    decreases |a| + |b|
  {
    if a != [] && b != [] {
      var i, j := |a| - 1, |b| - 1;
      if a[i].at <= b[j].at {
        MergeRecords(a, b[..j]);
        assert Records(b) == Records(b[..j]) + [b[j].r];
        assert Records(Merge(a, b)) == Records(Merge(a, b[..j])) + [b[j].r];
      } else {
        MergeRecords(a[..i], b);
        assert Records(a) == Records(a[..i]) + [a[i].r];
        assert Records(Merge(a, b)) == Records(Merge(a[..i], b)) + [a[i].r];
      }
    }
  }

  function Rebuild(k: Key, ops: seq<POp>): seq<HRecord> { seq(|ops|, i requires 0 <= i < |ops| => RecordOf(k, ops[i])) }

  lemma RebuildWithout(k: Key, b: seq<POp>, j: nat)
    requires j < |b|
    ensures multiset(Rebuild(k, b)) == multiset(Rebuild(k, b[..j] + b[j + 1..])) + multiset{RecordOf(k, b[j])}
  {
    TakeOut(Rebuild(k, b), j);
    assert Rebuild(k, b)[..j] + Rebuild(k, b)[j + 1..] == Rebuild(k, b[..j] + b[j + 1..]);
  }

  lemma {:induction false} RebuildPermuted(k: Key, a: seq<POp>, b: seq<POp>)
    requires multiset(a) == multiset(b)
    ensures multiset(Rebuild(k, a)) == multiset(Rebuild(k, b))
    decreases |a|
  {
    if a == [] {
      assert |multiset(b)| == |b|;
      assert b == [];
    } else {
      var x, a2 := a[|a| - 1], a[..|a| - 1];
      TakeLast(a);
      assert x in multiset(b);
      var j :| 0 <= j < |b| && b[j] == x;
      var b2 := b[..j] + b[j + 1..];
      TakeOut(b, j);
      CancelOne(multiset(a2), multiset(b2), x);
      RebuildPermuted(k, a2, b2);
      RebuildWithout(k, b, j);
      assert Rebuild(k, a) == Rebuild(k, a2) + [RecordOf(k, x)];
    }
  }

  lemma RebuildSplit(k: Key, a: seq<POp>, b: seq<POp>, ops: seq<POp>)
    requires multiset(a) + multiset(b) == multiset(ops)
    ensures multiset(Rebuild(k, ops)) == multiset(Rebuild(k, a)) + multiset(Rebuild(k, b))
  {
    RebuildPermuted(k, a + b, ops);
    assert Rebuild(k, a + b) == Rebuild(k, a) + Rebuild(k, b);
  }

  lemma {:induction false} PointsRecords(k: Key, ops: seq<POp>)
    ensures Records(Points(k, ops)) == Rebuild(k, ops)
    ensures OfKey(Points(k, ops), k, k + 1)
  {
    if ops != [] {
      var m := |ops| - 1;
      PointsRecords(k, ops[..m]);
      assert Rebuild(k, ops) == Rebuild(k, ops[..m]) + [RecordOf(k, ops[m])];
    }
  }

  lemma {:induction false} PointsKeyOps(k: Key, ops: seq<POp>)
    ensures KeyOps(Records(Points(k, ops)), k) == ops
  {
    if ops != [] {
      var m := |ops| - 1;
      PointsKeyOps(k, ops[..m]);
      KeyOpsLast(Points(k, ops[..m]), Timed(RecordOf(k, ops[m]), Latest(ops)), k);
    }
  }

  /** The part of the history on keys below `b`. */
  function Below(h: seq<HRecord>, b: nat): seq<HRecord> {
    if h == [] then []
    else Below(h[..|h| - 1], b) + if h[|h| - 1].op.key < b then [h[|h| - 1]] else []
  }

  /** The reads of key `k` that never returned. */
  function Spare(h: seq<HRecord>, k: Key): seq<HRecord> {
    if h == [] then []
    else
      var r := h[|h| - 1];
      Spare(h[..|h| - 1], k) + if r.op.key == k && Prepare(r).Skipped? then [r] else []
  }

  /** One record, as a multiset, if the condition holds. */
  ghost function Only(r: HRecord, yes: bool): multiset<HRecord> { if yes then multiset{r} else multiset{} }

  lemma LastCounts(h: seq<HRecord>, k: Key)
    requires h != [] && RecordOk(h[|h| - 1])
    ensures var init, r := h[..|h| - 1], h[|h| - 1];
            && multiset(Below(h, k)) == multiset(Below(init, k)) + Only(r, r.op.key < k)
            && multiset(Below(h, k + 1)) == multiset(Below(init, k + 1)) + Only(r, r.op.key <= k)
            && multiset(Spare(h, k)) == multiset(Spare(init, k)) + Only(r, r.op.key == k && Prepare(r).Skipped?)
            && multiset(Rebuild(k, KeyOps(h, k))) == multiset(Rebuild(k, KeyOps(init, k))) + Only(r, r.op.key == k && Prepare(r).Prepared?)
  {
    var init, r := h[..|h| - 1], h[|h| - 1];
    PrepareRecord(r);
    if r.op.key == k && Prepare(r).Prepared? {
      assert Rebuild(k, KeyOps(h, k)) == Rebuild(k, KeyOps(init, k)) + [r];
    } else {
      assert KeyOps(h, k) == KeyOps(init, k);
    }
  }

  lemma {:induction false} BelowNext(h: seq<HRecord>, k: Key)
    requires WellFormed(h)
    ensures multiset(Below(h, k + 1)) == multiset(Below(h, k)) + multiset(Rebuild(k, KeyOps(h, k))) + multiset(Spare(h, k))
  {
    if h != [] {
      BelowNext(h[..|h| - 1], k);
      LastCounts(h, k);
      PrepareRecord(h[|h| - 1]);
    }
  }

  lemma {:induction false} SparePending(h: seq<HRecord>, k: Key)
    requires WellFormed(h)
    ensures NeverReturned(Spare(h, k))
  {
    if h != [] {
      SparePending(h[..|h| - 1], k);
      PrepareRecord(h[|h| - 1]);
    }
  }

  lemma {:induction false} BelowAll(h: seq<HRecord>)
    ensures Below(h, 256) == h && Below(h, 0) == []
  {
    if h != [] {
      BelowAll(h[..|h| - 1]);
      assert h == h[..|h| - 1] + [h[|h| - 1]];
    }
  }

  ghost predicate AllLinearizable(h: seq<HRecord>, b: nat) { forall k: Key :: k < b ==> Linearizable(KeyOps(h, k)) }

  /** An order of the keys below `b`, by point, with the operations that never took effect. */
  ghost predicate Assembled(h: seq<HRecord>, b: nat, s: seq<Timed>, rest: seq<HRecord>) {
    var placed := Pointed(s) && OfKey(s, 0, b) && NeverReturned(rest);
    var counted := multiset(Records(s)) + multiset(rest) == multiset(Below(h, b));
    placed && counted && RunsBelow(s, b)
  }

  /** The registers of the keys below `b` accept the order. */
  ghost predicate RunsBelow(s: seq<Timed>, b: nat) { forall k: Key :: k < b ==> RunOps(None, KeyOps(Records(s), k)).Some? }

  lemma MergeRuns(s: seq<Timed>, t: seq<Timed>, k: Key)
    requires OfKey(s, 0, k) && OfKey(t, k, k + 1) && RunsBelow(s, k) && RunOps(None, KeyOps(Records(t), k)).Some?
    ensures RunsBelow(Merge(s, t), k + 1)
  {
    forall j: Key | j < k + 1 ensures RunOps(None, KeyOps(Records(Merge(s, t)), j)).Some? {
      MergeKeyOps(s, t, k, k + 1, j);
    }
  }

  lemma AssembleKey(h: seq<HRecord>, k: Key, s: seq<Timed>, rest: seq<HRecord>) returns (s2: seq<Timed>, rest2: seq<HRecord>)
    requires WellFormed(h) && Assembled(h, k, s, rest) && Linearizable(KeyOps(h, k))
    ensures Assembled(h, k + 1, s2, rest2)
  {
    var order, left :| Completes(multiset(KeyOps(h, k)), None, order, left);
    var t := Points(k, order);
    PointsArePointed(k, order);
    PointsRecords(k, order);
    PointsKeyOps(k, order);
    s2, rest2 := Merge(s, t), rest + Rebuild(k, left) + Spare(h, k);
    MergePointed(s, t);
    MergeOfKey(s, t, k);
    AssembleCounts(h, k, s, rest, t, order, left);
    RestPending(h, k, rest, left);
    MergeRuns(s, t, k);
  }

  lemma RestPending(h: seq<HRecord>, k: Key, rest: seq<HRecord>, left: seq<POp>)
    requires WellFormed(h) && NeverReturned(rest) && AllPending(left)
    ensures NeverReturned(rest + Rebuild(k, left) + Spare(h, k))
  {
    SparePending(h, k);
    assert NeverReturned(Rebuild(k, left));
  }

  lemma AssembleCounts(h: seq<HRecord>, k: Key, s: seq<Timed>, rest: seq<HRecord>, t: seq<Timed>, order: seq<POp>, left: seq<POp>)
    requires WellFormed(h) && multiset(Records(s)) + multiset(rest) == multiset(Below(h, k))
    requires Records(t) == Rebuild(k, order) && multiset(order) + multiset(left) == multiset(KeyOps(h, k))
    ensures multiset(Records(Merge(s, t))) + multiset(rest + Rebuild(k, left) + Spare(h, k)) == multiset(Below(h, k + 1))
  {
    MergeRecords(s, t);
    RebuildSplit(k, order, left, KeyOps(h, k));
    BelowNext(h, k);
  }

  lemma MergeOfKey(s: seq<Timed>, t: seq<Timed>, k: nat)
    requires OfKey(s, 0, k) && OfKey(t, k, k + 1)
    ensures OfKey(Merge(s, t), 0, k + 1)
  {
    var m := Merge(s, t);
    MergeMultiset(s, t);
    forall i | 0 <= i < |m| ensures 0 <= m[i].r.op.key < k + 1 {
      assert m[i] in multiset(m);
      assert m[i] in multiset(s) || m[i] in multiset(t);
    }
  }

  lemma {:induction false} AssembleKeys(h: seq<HRecord>, b: nat) returns (s: seq<Timed>, rest: seq<HRecord>)
    requires WellFormed(h) && b <= 256 && AllLinearizable(h, b)
    ensures Assembled(h, b, s, rest)
    decreases b
  {
    if b == 0 {
      AssembledNone(h);
      s, rest := [], [];
    } else {
      s, rest := AssembleKeys(h, b - 1);
      s, rest := AssembleKey(h, b - 1, s, rest);
    }
  }

  lemma AssembledNone(h: seq<HRecord>)
    ensures Assembled(h, 0, [], [])
  {
    BelowAll(h);
  }

  /** Linearizations of the keys combine into one of the whole history. */
  lemma KeysToWhole(h: seq<HRecord>)
    requires WellFormed(h) && AllLinearizable(h, 256)
    ensures Explained(h)
  {
    var s, rest := AssembleKeys(h, 256);
    BelowAll(h);
    var order := Records(s);
    PermutedWellFormed(h, order, rest);
    PointedInRealTime(s);
    MapIsRegisters(order);
    assert Explains(h, order, rest);
  }

  /** Locality: the whole history is linearizable exactly when every key is. */
  lemma Locality(h: seq<HRecord>)
    requires WellFormed(h)
    ensures Explained(h) <==> AllLinearizable(h, 256)
  {
    if Explained(h) {
      forall k: Key ensures Linearizable(KeyOps(h, k)) { WholeToKey(h, k); }
    }
    if AllLinearizable(h, 256) { KeysToWhole(h); }
  }

  // ------------------------------------------------------------- the check

  predicate HasKey(h: seq<HRecord>, k: Key) { exists i :: 0 <= i < |h| && h[i].op.key == k }

  /** The distinct keys below `b` that occur in the history, ascending. */
  function Keys(h: seq<HRecord>, b: nat): (r: seq<Key>)
    requires b <= 256
    ensures forall i :: 0 <= i < |r| ==> r[i] < b && HasKey(h, r[i])
    ensures forall i, j :: 0 <= i < j < |r| ==> r[i] < r[j]
    ensures forall k: Key :: k < b && HasKey(h, k) ==> k in r
  {
    if b == 0 then [] else Keys(h, b - 1) + if HasKey(h, b - 1) then [b - 1] else []
  }

  lemma {:induction false} AbsentKey(h: seq<HRecord>, k: Key)
    requires !HasKey(h, k)
    ensures KeyOps(h, k) == []
  {
    if h != [] {
      assert h[|h| - 1].op.key != k;
      var init := h[..|h| - 1];
      assert !HasKey(init, k) by { assert forall i :: 0 <= i < |init| ==> init[i] == h[i]; }
      AbsentKey(init, k);
    }
  }

  lemma EmptyLinearizable()
    ensures Linearizable([])
  {
    assert Completes(multiset([]), None, [], []);
  }

  /** Collects the operations of one key, or stops at a response of the wrong kind. */
  method CollectKey(h: seq<HRecord>, key: Key) returns (ops: seq<POp>, r: Verdict)
    ensures r.Ok? ==> ops == KeyOps(h, key)
    ensures r.Err? ==> exists i :: 0 <= i < |h| && h[i].op.key == key && Prepare(h[i]) == Malformed(r.error)
  {
    ops, r := [], Ok;
    for i := 0 to |h|
      invariant ops == KeyOps(h[..i], key)
    {
      assert h[..i + 1][..i] == h[..i];
      if h[i].op.key != key { continue; }
      match Prepare(h[i])
      case Skipped => {}
      case Prepared(op) => ops := ops + [op];
      case Malformed(e) => return ops, Err(e);
    }
    assert h[..|h|] == h;
  }

  /** Ok means the whole history is linearizable; the verdict "not linearizable" means it is not. */
  method CheckHistory(h: seq<HRecord>) returns (r: Verdict)
    ensures WellFormed(h) && r.Ok? ==> Explained(h)
    ensures WellFormed(h) && r.Err? && r.error.NotLinearizable? ==> !Explained(h)
    ensures WellFormed(h) && r.Err? ==> r.error.NotLinearizable? || r.error.TooManyOps? || r.error.BudgetExceeded?
    ensures r.Err? && r.error.TooManyOps? ==> |h| > MAX_OPS
  {
    var keys := Keys(h, 256);
    for i := 0 to |keys|
      invariant forall j :: 0 <= j < i ==> Linearizable(KeyOps(h, keys[j]))
    {
      var ops, v := CollectKey(h, keys[i]);
      if v.Err? {
        CollectFails(h, keys[i], v.error);
        return v;
      }
      r := CheckKey(ops);
      if r.Err? {
        KeyOpsShorter(h, keys[i]);
        if WellFormed(h) && Explained(h) { WholeToKey(h, keys[i]); }
        return;
      }
    }
    r := Ok;
    forall k: Key ensures Linearizable(KeyOps(h, k)) {
      if HasKey(h, k) {
        assert k in keys;
      } else {
        AbsentKey(h, k);
        EmptyLinearizable();
      }
    }
    if WellFormed(h) { KeysToWhole(h); }
  }

  lemma CollectFails(h: seq<HRecord>, k: Key, e: CheckError)
    requires exists i :: 0 <= i < |h| && h[i].op.key == k && Prepare(h[i]) == Malformed(e)
    ensures !WellFormed(h) && (e == MalformedCas || e == MalformedRecord)
  {
    var i :| 0 <= i < |h| && h[i].op.key == k && Prepare(h[i]) == Malformed(e);
    if RecordOk(h[i]) { PrepareRecord(h[i]); }
  }

  lemma {:induction false} KeyOpsShorter(h: seq<HRecord>, k: Key)
    ensures |KeyOps(h, k)| <= |h|
  {
    if h != [] { KeyOpsShorter(h[..|h| - 1], k); }
  }
}
