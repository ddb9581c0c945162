/** The replicated key-value state machine (crates/kvsm/src/lib.rs), as a value. */
module Kvsm {
  import opened Prelude

  datatype Op =
    | Put(key: Bytes, value: Bytes)
    | Delete(key: Bytes)
    | Cas(key: Bytes, expected: Option<Bytes>, replacement: Option<Bytes>)
    | Get(key: Bytes)

  datatype Command = Command(sessionId: nat, serial: nat, op: Op)

  datatype OpResult =
    | Done
    | Value(value: Option<Bytes>)
    | CasResult(success: bool, actual: Option<Bytes>)
    | Stale

  datatype SessionState = SessionState(lastSeq: nat, lastResult: OpResult)

  datatype State = State(kvs: map<Bytes, Bytes>, sessions: map<nat, SessionState>)

  const EMPTY: State := State(map[], map[])

  function Lookup(kvs: map<Bytes, Bytes>, key: Bytes): Option<Bytes> {
    if key in kvs then Some(kvs[key]) else None
  }

  /** `Backend::set`: a missing value deletes the key. */
  function Store(kvs: map<Bytes, Bytes>, key: Bytes, value: Option<Bytes>): map<Bytes, Bytes> {
    match value
    case Some(v) => kvs[key := v]
    case None => kvs - {key}
  }

  function Execute(kvs: map<Bytes, Bytes>, op: Op): (map<Bytes, Bytes>, OpResult) {
    match op
    case Put(k, v) => (Store(kvs, k, Some(v)), Done)
    case Delete(k) => (Store(kvs, k, None), Done)
    case Cas(k, expected, n) =>
      var actual := Lookup(kvs, k);
      if actual == expected then (Store(kvs, k, n), CasResult(true, actual))
      else (kvs, CasResult(false, actual))
    case Get(k) => (kvs, Value(Lookup(kvs, k)))
  }

  /** The command is answered from the session table without executing. */
  predicate Suppressed(s: State, c: Command) {
    c.sessionId != 0 && c.sessionId in s.sessions && c.serial <= s.sessions[c.sessionId].lastSeq
  }

  function Apply(s: State, c: Command): (State, OpResult) {
    if Suppressed(s, c) then
      var e := s.sessions[c.sessionId];
      (s, if c.serial == e.lastSeq then e.lastResult else Stale)
    else
      var (kvs, r) := Execute(s.kvs, c.op);
      (State(kvs, if c.sessionId == 0 then s.sessions
                  else s.sessions[c.sessionId := SessionState(c.serial, r)]), r)
  }
}
