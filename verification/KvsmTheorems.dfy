/** The state machine object, its snapshots, and exactly-once application (crates/kvsm/src/lib.rs). */
module KvsmTheorems {
  import opened Prelude
  import opened LsmOrder
  import opened Kvsm
  import opened SortedMaps

  // ------------------------------------------------------------- one command

  /** The map has exactly this at the key. */
  predicate Holds(kvs: map<Bytes, Bytes>, key: Bytes, o: Option<Bytes>) {
    match o
    case Some(v) => key in kvs && kvs[key] == v
    case None => key !in kvs
  }

  /** What an operation leaves at its key and what it answers, in terms of what the key held before. */
  predicate Effect(op: Op, before: map<Bytes, Bytes>, after: map<Bytes, Bytes>, r: OpResult) {
    match op
    case Put(k, v) => Holds(after, k, Some(v)) && r == Done
    case Delete(k) => Holds(after, k, None) && r == Done
    case Get(k) => r.Value? && Holds(before, k, r.value) && Holds(after, k, r.value)
    case Cas(k, expected, replacement) =>
      && r.CasResult? && Holds(before, k, r.actual) && (r.success <==> r.actual == expected)
      && Holds(after, k, if r.success then replacement else r.actual)
  }

  ghost predicate OthersKeep(key: Bytes, before: map<Bytes, Bytes>, after: map<Bytes, Bytes>) {
    forall k, o :: k != key ==> (Holds(before, k, o) <==> Holds(after, k, o))
  }

  /** The session has already gone as far as this command. */
  predicate Repeated(s: State, c: Command) {
    c.sessionId != 0 && c.sessionId in s.sessions && c.serial <= s.sessions[c.sessionId].lastSeq
  }

  /** The rule of one command: a repeated one changes nothing and gets the stored answer, or `Stale` when the session has
      moved on; any other one takes effect on its own key, and its session remembers it. */
  ghost predicate Performs(s: State, c: Command, s2: State, r: OpResult) {
    if Repeated(s, c) then
      s2 == s && r == if c.serial == s.sessions[c.sessionId].lastSeq then s.sessions[c.sessionId].lastResult else Stale
    else
      && Effect(c.op, s.kvs, s2.kvs, r) && OthersKeep(c.op.key, s.kvs, s2.kvs)
      && (forall id :: id != c.sessionId || id == 0 ==> SameSession(s, s2, id))
      && (c.sessionId != 0 ==> c.sessionId in s2.sessions && s2.sessions[c.sessionId] == SessionState(c.serial, r))
  }

  predicate SameSession(s: State, s2: State, id: nat) {
    (id in s.sessions <==> id in s2.sessions) && (id in s.sessions ==> s.sessions[id] == s2.sessions[id])
  }

  lemma ApplyPerforms(s: State, c: Command)
    ensures Performs(s, c, Apply(s, c).0, Apply(s, c).1)
  {
    if !Repeated(s, c) { ExecuteEffect(s.kvs, c.op); }
  }

  lemma ExecuteEffect(kvs: map<Bytes, Bytes>, op: Op)
    ensures Effect(op, kvs, Execute(kvs, op).0, Execute(kvs, op).1) && OthersKeep(op.key, kvs, Execute(kvs, op).0)
  {}

  /** The rule leaves no choice. */
  lemma PerformsDetermines(s: State, c: Command, s2: State, r: OpResult, s3: State, q: OpResult)
    requires Performs(s, c, s2, r) && Performs(s, c, s3, q)
    ensures s2 == s3 && r == q
  {
    if !Repeated(s, c) {
      assert r == q;
      forall k ensures (k in s2.kvs <==> k in s3.kvs) && (k in s2.kvs ==> s2.kvs[k] == s3.kvs[k]) {
        var o := Lookup(s.kvs, k);
        assert k != c.op.key ==> Holds(s.kvs, k, o);
      }
      assert s2.kvs == s3.kvs;
      forall id ensures (id in s2.sessions <==> id in s3.sessions) && (id in s2.sessions ==> s2.sessions[id] == s3.sessions[id]) {
        assert id != c.sessionId || id == 0 ==> SameSession(s, s2, id) && SameSession(s, s3, id);
      }
      assert s2.sessions == s3.sessions;
    }
  }

  // ------------------------------------------------------------- whole command sequences

  function RunState(s: State, cs: seq<Command>): State {
    if cs == [] then s else Apply(RunState(s, cs[..|cs| - 1]), cs[|cs| - 1]).0
  }

  /** The answers, one per command. */
  function RunResults(s: State, cs: seq<Command>): seq<OpResult> {
    if cs == [] then []
    else RunResults(s, cs[..|cs| - 1]) + [Apply(RunState(s, cs[..|cs| - 1]), cs[|cs| - 1]).1]
  }

  lemma {:induction false} RunConcat(s: State, a: seq<Command>, b: seq<Command>)
    ensures RunState(s, a + b) == RunState(RunState(s, a), b)
    ensures RunResults(s, a + b) == RunResults(s, a) + RunResults(RunState(s, a), b)
    decreases |b|
  {
    if b == [] {
      assert a + b == a;
    } else {
      var k := |b| - 1;
      RunConcat(s, a, b[..k]);
      assert (a + b)[..|a| + k] == a + b[..k];
    }
  }

  // ------------------------------------------------------------- exactly once

  /** Session numbers never go back. */
  lemma {:induction false} SessionsAdvance(s: State, cs: seq<Command>, id: nat)
    requires id in s.sessions
    ensures id in RunState(s, cs).sessions && s.sessions[id].lastSeq <= RunState(s, cs).sessions[id].lastSeq
  {
    if cs != [] { SessionsAdvance(s, cs[..|cs| - 1], id); }
  }

  /** Once a session command was applied it is suppressed forever after. */
  lemma AppliedIsSuppressed(s: State, c: Command, cs: seq<Command>)
    requires c.sessionId != 0
    ensures Suppressed(RunState(Apply(s, c).0, cs), c)
  {
    SessionsAdvance(Apply(s, c).0, cs, c.sessionId);
  }

  /** Another copy of a session command, anywhere after its first occurrence, changes no key, no session
      entry and no other answer. */
  lemma ExtraCopyHarmless(s: State, a: seq<Command>, c: Command, b: seq<Command>, d: seq<Command>)
    requires c.sessionId != 0
    ensures RunState(s, a + [c] + b + [c] + d) == RunState(s, a + [c] + b + d)
    ensures exists r :: RunResults(s, a + [c] + b + [c] + d) ==
                        RunResults(s, a + [c] + b) + [r] + RunResults(RunState(s, a + [c] + b), d)
    ensures RunResults(s, a + [c] + b + d) == RunResults(s, a + [c] + b) + RunResults(RunState(s, a + [c] + b), d)
  {
    var pre := a + [c] + b;
    RunConcat(s, a, [c]);
    RunConcat(s, a + [c], b);
    RunOne(RunState(s, a), c);
    AppliedIsSuppressed(RunState(s, a), c, b);
    var mid := RunState(s, pre);
    assert Suppressed(mid, c);
    RunOne(mid, c);
    RunConcat(s, pre, [c]);
    RunConcat(s, pre + [c], d);
    RunConcat(s, pre, d);
    assert RunResults(s, pre + [c] + d) == RunResults(s, pre) + [Apply(mid, c).1] + RunResults(mid, d);
  }

  lemma RunOne(s: State, c: Command)
    ensures RunState(s, [c]) == Apply(s, c).0 && RunResults(s, [c]) == [Apply(s, c).1]
  {
    assert [c][..0] == [];
  }

  /** The copy gets the first answer again as long as the session has not moved on. */
  lemma CopyAnswered(s: State, c: Command, b: seq<Command>)
    requires c.sessionId != 0 && !Suppressed(s, c)
    requires forall i :: 0 <= i < |b| ==> b[i].sessionId != c.sessionId || b[i].serial <= c.serial
    ensures Apply(RunState(Apply(s, c).0, b), c).1 == Apply(s, c).1
  {
    SessionQuiet(Apply(s, c).0, c.sessionId, b);
  }

  lemma {:induction false} SessionQuiet(s: State, id: nat, b: seq<Command>)
    requires id != 0 && id in s.sessions && forall i :: 0 <= i < |b| ==> b[i].sessionId != id || b[i].serial <= s.sessions[id].lastSeq
    ensures id in RunState(s, b).sessions && RunState(s, b).sessions[id] == s.sessions[id]
  {
    if b != [] { SessionQuiet(s, id, b[..|b| - 1]); }
  }

  // ------------------------------------------------------------- snapshots

  /** The serialized state: keys and sessions in ascending order. */
  datatype Payload = Payload(kvs: seq<(Bytes, Bytes)>, sessions: seq<(nat, SessionState)>)

  ghost predicate PayloadOf(p: Payload, s: State) {
    DumpOf(p.kvs, s.kvs, Less) && DumpOf(p.sessions, s.sessions, Lower)
  }

  predicate Lower(a: nat, b: nat) { a < b }

  lemma LessOrders()
    ensures Orders(Less)
  {
    forall x { LessIrreflexive(x); }
    forall x, y | Less(x, y) ensures !Less(y, x) { LessAsymmetric(x, y); }
    forall x, y, z | Less(x, y) && Less(y, z) ensures Less(x, z) { LessTransitive(x, y, z); }
    forall x, y ensures Less(x, y) || x == y || Less(y, x) { LessTotal(x, y); }
  }

  lemma LowerOrders()
    ensures Orders(Lower)
  {}

  /** Two replicas with the same state serialize to the same payload. */
  lemma PayloadDetermined(p: Payload, q: Payload, s: State)
    requires PayloadOf(p, s) && PayloadOf(q, s)
    ensures p == q
  {
    LessOrders();
    LowerOrders();
    DumpDetermined(p.kvs, q.kvs, s.kvs, Less);
    DumpDetermined(p.sessions, q.sessions, s.sessions, Lower);
  }

  // ------------------------------------------------------------- the object

  class StateMachine {
    var kvs: map<Bytes, Bytes>
    var sessions: map<nat, SessionState>

    function View(): State
      reads this
    {
      State(kvs, sessions)
    }

    constructor ()
      ensures View() == EMPTY
    {
      kvs, sessions := map[], map[];
    }

    method ExecuteOp(op: Op) returns (r: OpResult)
      modifies this`kvs
      ensures (kvs, r) == Execute(old(kvs), op) && Effect(op, old(kvs), kvs, r) && OthersKeep(op.key, old(kvs), kvs)
    {
      ExecuteEffect(kvs, op);
      match op
      case Put(k, v) =>
        kvs := kvs[k := v];
        r := Done;
      case Delete(k) =>
        kvs := kvs - {k};
        r := Done;
      case Cas(k, expected, replacement) =>
        var actual := Lookup(kvs, k);
        r := CasResult(actual == expected, actual);
        if actual == expected { kvs := Store(kvs, k, replacement); }
      case Get(k) =>
        r := Value(Lookup(kvs, k));
    }

    /** One committed command: a repeated one is answered from the table. */
    method ApplyCommand(c: Command) returns (r: OpResult)
      modifies this
      ensures (View(), r) == Apply(old(View()), c) && Performs(old(View()), c, View(), r)
    {
      ApplyPerforms(View(), c);
      if c.sessionId != 0 && c.sessionId in sessions {
        var s := sessions[c.sessionId];
        if c.serial == s.lastSeq { return s.lastResult; }
        if c.serial < s.lastSeq { return Stale; }
      }
      r := ExecuteOp(c.op);
      if c.sessionId != 0 {
        sessions := sessions[c.sessionId := SessionState(c.serial, r)];
      }
    }

    /** The full state, sessions included, in an order that depends on nothing else. */
    method Snapshot() returns (p: Payload)
      ensures PayloadOf(p, View())
    {
      LessOrders();
      LowerOrders();
      var items := Dump(kvs, Less);
      var table := Dump(sessions, Lower);
      p := Payload(items, table);
    }

    /** Restoring a payload gives back the state it was taken from. */
    method Restore(p: Payload)
      modifies this
      ensures forall s :: PayloadOf(p, s) ==> View() == s
    {
      LessOrders();
      LowerOrders();
      kvs, sessions := Load(p.kvs), Load(p.sessions);
      forall s | PayloadOf(p, s) ensures View() == s {
        LoadBack(p.kvs, s.kvs, Less);
        LoadBack(p.sessions, s.sessions, Lower);
      }
    }
  }

  /** A replica restored from a snapshot taken after `a` and fed `b` ends with the payload of one that
      replayed everything, and answers `b` the same way. */
  lemma RestoredReplica(a: seq<Command>, b: seq<Command>, p: Payload, restored: State, q: Payload, full: Payload)
    requires PayloadOf(p, RunState(EMPTY, a)) && PayloadOf(p, restored)
    requires PayloadOf(q, RunState(restored, b)) && PayloadOf(full, RunState(EMPTY, a + b))
    ensures q == full && RunResults(EMPTY, a + b) == RunResults(EMPTY, a) + RunResults(restored, b)
  {
    LessOrders();
    LowerOrders();
    var taken := RunState(EMPTY, a);
    LoadBack(p.kvs, restored.kvs, Less);
    LoadBack(p.kvs, taken.kvs, Less);
    LoadBack(p.sessions, restored.sessions, Lower);
    LoadBack(p.sessions, taken.sessions, Lower);
    RunConcat(EMPTY, a, b);
    PayloadDetermined(q, full, RunState(restored, b));
  }
}
