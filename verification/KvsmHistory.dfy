/** The state machine as the clients of the simulator see it: commands made from history operations, answers read back
    into history results (crates/sim/src/history.rs:39-47, crates/sim/src/cluster.rs:630-760).

    Run one after the other, the commands that take effect behave as the sequential map against which histories are
    checked. */
module KvsmHistory {
  import opened Prelude
  import opened Codec
  import opened Kvsm
  import opened KvsmTheorems
  import W = WglLocality

  // ------------------------------------------------------------- requests and answers

  function EncodeVal(v: nat): Bytes { Le(v, 8) }

  function EncodeOpt(v: Option<nat>): Option<Bytes> { if v.Some? then Some(EncodeVal(v.value)) else None }

  function DecodeOpt(b: Option<Bytes>): Option<nat> { if b.Some? then Some(FromLe(b.value)) else None }

  function KeyBytes(k: W.Key): Bytes { [k as byte] }

  /** The operation a client asks for. */
  function Request(op: W.HOp): Op {
    match op
    case HRead(k) => Get(KeyBytes(k))
    case HWrite(k, v) => Put(KeyBytes(k), EncodeVal(v))
    case HCas(k, e, v) => Cas(KeyBytes(k), EncodeOpt(e), Some(EncodeVal(v)))
  }

  /** The result the client records; a stale answer records nothing. */
  function Reported(r: OpResult): Option<W.HRes> {
    match r
    case Done => Some(W.WriteOk)
    case Value(v) => Some(W.ReadOk(DecodeOpt(v)))
    case CasResult(success, _) => Some(W.CasOk(success))
    case Stale => None
  }

  /** Values are 64-bit. */
  predicate Fits(op: W.HOp) {
    match op
    case HRead(_) => true
    case HWrite(_, v) => v < Pow256(8)
    case HCas(_, e, v) => v < Pow256(8) && (e.Some? ==> e.value < Pow256(8))
  }

  // ------------------------------------------------------------- the refinement

  /** The store has the map's values, encoded, at the one-byte keys. */
  ghost predicate Mirrors(kvs: map<Bytes, Bytes>, m: map<W.Key, nat>) {
    forall k: W.Key :: MirrorsAt(kvs, m, k)
  }

  predicate MirrorsAt(kvs: map<Bytes, Bytes>, m: map<W.Key, nat>, k: W.Key) {
    if k in m then m[k] < Pow256(8) && Holds(kvs, KeyBytes(k), Some(EncodeVal(m[k]))) else Holds(kvs, KeyBytes(k), None)
  }

  lemma EncodedEqual(a: nat, b: nat)
    requires a < Pow256(8) && b < Pow256(8)
    ensures FromLe(EncodeVal(a)) == a && (EncodeVal(a) == EncodeVal(b) <==> a == b)
  {
    LeExact(a, 8);
    LeExact(b, 8);
  }

  /** The store's expectation is met exactly if the map's is. */
  lemma SameExpectation(kvs: map<Bytes, Bytes>, m: map<W.Key, nat>, k: W.Key, e: Option<nat>, actual: Option<Bytes>)
    requires MirrorsAt(kvs, m, k) && Holds(kvs, KeyBytes(k), actual) && (e.Some? ==> e.value < Pow256(8))
    ensures actual == EncodeOpt(e) <==> (if k in m then e == Some(m[k]) else e == None)
    ensures DecodeOpt(actual) == if k in m then Some(m[k]) else None
  {
    if k in m { EncodedEqual(m[k], if e.Some? then e.value else 0); }
  }

  /** A command that takes effect answers what the sequential map answers and leaves the store mirroring it. */
  lemma StepRefines(s: State, m: map<W.Key, nat>, c: Command, op: W.HOp, s2: State, r: OpResult)
    requires Mirrors(s.kvs, m) && Fits(op) && c.op == Request(op) && !Repeated(s, c) && Performs(s, c, s2, r)
    ensures Mirrors(s2.kvs, W.Execute(m, op).0) && Reported(r) == Some(W.Execute(m, op).1)
  {
    assert MirrorsAt(s.kvs, m, op.key);
    if op.HRead? { SameExpectation(s.kvs, m, op.key, None, r.value); }
    if op.HCas? { SameExpectation(s.kvs, m, op.key, op.expected, r.actual); }
    var m2 := W.Execute(m, op).0;
    forall k: W.Key ensures MirrorsAt(s2.kvs, m2, k) {
      assert MirrorsAt(s.kvs, m, k);
      if k != op.key {
        assert KeyBytes(k)[0] != KeyBytes(op.key)[0];
        assert KeyBytes(k) != c.op.key;
        assert m2.Keys == m.Keys || m2.Keys == m.Keys + {op.key};
      }
    }
  }

  // ------------------------------------------------------------- whole runs

  /** Record `i` is the history record of command `i`: its operation, and no result but the one the command was answered. */
  predicate RecordOfCommand(c: Command, answer: OpResult, r: W.HRecord) {
    Fits(r.op) && c.op == Request(r.op) && (r.result.Some? ==> Reported(answer) == r.result)
  }

  ghost predicate RecordsOf(s: State, cs: seq<Command>, rs: seq<W.HRecord>) {
    |rs| == |cs| == |RunResults(s, cs)| && forall i :: 0 <= i < |cs| ==> RecordOfCommand(cs[i], RunResults(s, cs)[i], rs[i])
  }

  /** The records of the commands that took effect, in the order of the log. */
  function Effective(s: State, cs: seq<Command>, rs: seq<W.HRecord>): seq<W.HRecord>
    requires |rs| == |cs|
  {
    if cs == [] then []
    else
      var k := |cs| - 1;
      Effective(s, cs[..k], rs[..k]) + (if Repeated(RunState(s, cs[..k]), cs[k]) then [] else [rs[k]])
  }

  lemma {:induction false} OneAnswerEach(s: State, cs: seq<Command>)
    ensures |RunResults(s, cs)| == |cs|
  {
    if cs != [] { OneAnswerEach(s, cs[..|cs| - 1]); }
  }

  lemma RecordsBefore(s: State, cs: seq<Command>, rs: seq<W.HRecord>)
    requires cs != [] && RecordsOf(s, cs, rs)
    ensures var k := |cs| - 1;
            RecordsOf(s, cs[..k], rs[..k]) && RecordOfCommand(cs[k], Apply(RunState(s, cs[..k]), cs[k]).1, rs[k])
  {
    var k := |cs| - 1;
    OneAnswerEach(s, cs[..k]);
    forall i | 0 <= i < k ensures RecordOfCommand(cs[..k][i], RunResults(s, cs[..k])[i], rs[..k][i]) {
      assert RunResults(s, cs)[i] == RunResults(s, cs[..k])[i];
      assert RecordOfCommand(cs[i], RunResults(s, cs)[i], rs[i]);
    }
    assert RecordOfCommand(cs[k], RunResults(s, cs)[k], rs[k]);
  }

  /** Any sequence of client commands: the sequential map accepts the recorded results of those that took effect, in log
      order, and the store ends up mirroring it. */
  lemma {:induction false} RunRefinesMap(cs: seq<Command>, rs: seq<W.HRecord>)
    requires RecordsOf(EMPTY, cs, rs)
    ensures W.RunMap(Effective(EMPTY, cs, rs)).Some? && Mirrors(RunState(EMPTY, cs).kvs, W.RunMap(Effective(EMPTY, cs, rs)).value)
    decreases |cs|
  {
    if cs == [] {
      forall k: W.Key ensures MirrorsAt(EMPTY.kvs, map[], k) {}
    } else {
      var k := |cs| - 1;
      RecordsBefore(EMPTY, cs, rs);
      RunRefinesMap(cs[..k], rs[..k]);
      var s, done := RunState(EMPTY, cs[..k]), Effective(EMPTY, cs[..k], rs[..k]);
      ApplyPerforms(s, cs[k]);
      if !Repeated(s, cs[k]) {
        StepRefines(s, W.RunMap(done).value, cs[k], rs[k].op, Apply(s, cs[k]).0, Apply(s, cs[k]).1);
        assert (done + [rs[k]])[..|done|] == done;
      } else {
        assert Effective(EMPTY, cs, rs) == done;
      }
    }
  }
}
