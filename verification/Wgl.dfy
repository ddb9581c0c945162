/** The Wing and Gong linearizability checker for one key (crates/sim/src/wgl.rs).

    `Linearizable` is the definition: the operations split into an order that respects real time and
    every recorded result, and a remainder of operations that never returned.  `CheckKey` is the
    depth-first search with a memo table; it decides that definition unless a limit stops it. */
module Wgl {
  import opened Prelude

  type Time = t: nat | t < 0x1_0000_0000_0000_0000

  const MAX_TIME: Time := 0xFFFF_FFFF_FFFF_FFFF
  const MAX_OPS := 4096
  const EXPANSION_BUDGET := 5_000_000

  datatype Kind =
    | Read(result: Option<nat>)
    | Write(val: nat)
    | Cas(expected: Option<nat>, replacement: nat, success: Option<bool>)

  /** `ret` is absent for an operation that was still pending when the run ended. */
  datatype POp = POp(invoke: Time, ret: Option<Time>, kind: Kind, client: nat)

  datatype CheckError =
    | TooManyOps(n: nat)
    | BudgetExceeded(expansions: nat, n: nat)
    | NotLinearizable(report: seq<POp>)
    | MalformedCas
    | MalformedRecord

  datatype Verdict = Ok | Err(error: CheckError)

  /** The register after the operation, if its recorded response is what the register would answer. */
  function TryApply(kind: Kind, value: Option<nat>): Option<Option<nat>> {
    match kind
    case Read(result) => if result == value then Some(value) else None
    case Write(val) => Some(Some(val))
    case Cas(expected, replacement, success) =>
      var wouldSucceed := value == expected;
      if success.Some? && success.value != wouldSucceed then None
      else Some(if wouldSucceed then Some(replacement) else value)
  }

  // ------------------------------------------------------------- linearizability

  /** `x` returned before `y` was invoked. */
  predicate Precedes(x: POp, y: POp) { x.ret.Some? && x.ret.value < y.invoke }

  predicate RealTime(order: seq<POp>) {
    forall a, b :: 0 <= a <= b < |order| ==> !Precedes(order[b], order[a])
  }

  /** The register after the whole order, or nothing when some recorded response is wrong. */
  function RunOps(value: Option<nat>, order: seq<POp>): Option<Option<nat>> {
    if order == [] then Some(value)
    else match RunOps(value, order[..|order| - 1])
      case None => None
      case Some(v) => TryApply(order[|order| - 1].kind, v)
  }

  predicate AllPending(ops: seq<POp>) { forall i :: 0 <= i < |ops| ==> ops[i].ret.None? }

  ghost predicate Completes(pool: multiset<POp>, value: Option<nat>, order: seq<POp>, rest: seq<POp>) {
    && multiset(order) + multiset(rest) == pool
    && AllPending(rest) && RealTime(order) && RunOps(value, order).Some?
  }

  ghost predicate Completable(pool: multiset<POp>, value: Option<nat>) {
    exists order, rest :: Completes(pool, value, order, rest)
  }

  /** Some order of all completed and some pending operations explains every response. */
  ghost predicate Linearizable(ops: seq<POp>) { Completable(multiset(ops), None) }

  lemma {:induction false} RunFront(value: Option<nat>, x: POp, order: seq<POp>)
    ensures RunOps(value, [x] + order) ==
            if TryApply(x.kind, value).None? then None else RunOps(TryApply(x.kind, value).value, order)
    decreases |order|
  {
    var s := [x] + order;
    if order == [] {
      assert s[..0] == [];
    } else {
      RunFront(value, x, order[..|order| - 1]);
      assert s[..|s| - 1] == [x] + order[..|order| - 1];
    }
  }

  // ------------------------------------------------------------- search states

  datatype State = State(mask: seq<bool>, value: Option<nat>)

  /** The operations that the mask has not linearized. */
  ghost function Left(ops: seq<POp>, mask: seq<bool>): multiset<POp>
    requires |ops| == |mask|
  {
    if ops == [] then multiset{}
    else var k := |ops| - 1;
      Left(ops[..k], mask[..k]) + if mask[k] then multiset{} else multiset{ops[k]}
  }

  lemma {:induction false} LeftNothingMarked(ops: seq<POp>, mask: seq<bool>)
    requires |ops| == |mask| && forall i :: 0 <= i < |mask| ==> !mask[i]
    ensures Left(ops, mask) == multiset(ops)
  {
    if ops != [] {
      var k := |ops| - 1;
      LeftNothingMarked(ops[..k], mask[..k]);
      assert ops == ops[..k] + [ops[k]];
    }
  }

  lemma {:induction false} LeftMark(ops: seq<POp>, mask: seq<bool>, i: nat)
    requires |ops| == |mask| && i < |ops| && !mask[i]
    ensures Left(ops, mask) == Left(ops, mask[i := true]) + multiset{ops[i]}
  {
    var k := |ops| - 1;
    if i < k {
      LeftMark(ops[..k], mask[..k], i);
      assert mask[i := true][..k] == mask[..k][i := true];
    } else {
      assert mask[i := true][..k] == mask[..k];
    }
  }

  lemma {:induction false} LeftIndex(ops: seq<POp>, mask: seq<bool>, x: POp) returns (i: nat)
    requires |ops| == |mask| && x in Left(ops, mask)
    ensures i < |ops| && !mask[i] && ops[i] == x
  {
    var k := |ops| - 1;
    if !mask[k] && ops[k] == x { i := k; } else { i := LeftIndex(ops[..k], mask[..k], x); }
  }

  lemma LeftHas(ops: seq<POp>, mask: seq<bool>, i: nat)
    requires |ops| == |mask| && i < |ops| && !mask[i]
    ensures ops[i] in Left(ops, mask)
  {
    LeftMark(ops, mask, i);
  }

  /** Every completed operation has been linearized. */
  predicate Done(ops: seq<POp>, mask: seq<bool>)
    requires |ops| == |mask|
  {
    forall i :: 0 <= i < |ops| && ops[i].ret.Some? ==> mask[i]
  }

  /** Operation `i` may be linearized next: nothing left over returned before it was invoked. */
  predicate Candidate(ops: seq<POp>, mask: seq<bool>, i: nat)
    requires |ops| == |mask|
  {
    i < |ops| && !mask[i] && forall j :: 0 <= j < |ops| && !mask[j] ==> !Precedes(ops[j], ops[i])
  }

  /** `t` follows `s` by linearizing operation `i`. */
  predicate Follows(ops: seq<POp>, s: State, i: nat, t: State)
    requires |ops| == |s.mask|
  {
    && Candidate(ops, s.mask, i)
    && TryApply(ops[i].kind, s.value).Some?
    && t == State(s.mask[i := true], TryApply(ops[i].kind, s.value).value)
  }

  /** Nothing linearized and no value stored. */
  function Start(ops: seq<POp>): State { State(seq(|ops|, i => false), None) }

  ghost predicate IsFollower(ops: seq<POp>, s: State, t: State)
    requires |ops| == |s.mask|
  {
    exists i: nat :: Follows(ops, s, i, t)
  }

  /** The state after linearizing the operations of `path` in turn, if the search allows it. */
  function StateAfter(ops: seq<POp>, path: seq<nat>): (r: Option<State>)
    ensures r.Some? ==> |r.value.mask| == |ops|
  {
    if path == [] then Some(Start(ops))
    else
      var i := path[|path| - 1];
      match StateAfter(ops, path[..|path| - 1])
      case None => None
      case Some(s) =>
        if Candidate(ops, s.mask, i) && TryApply(ops[i].kind, s.value).Some?
        then Some(State(s.mask[i := true], TryApply(ops[i].kind, s.value).value)) else None
  }

  ghost predicate Reachable(ops: seq<POp>, s: State) { exists path :: StateAfter(ops, path) == Some(s) }

  lemma FollowerReachable(ops: seq<POp>, s: State, i: nat, t: State)
    requires |ops| == |s.mask| && Follows(ops, s, i, t) && Reachable(ops, s)
    ensures Reachable(ops, t)
  {
    var path :| StateAfter(ops, path) == Some(s);
    assert (path + [i])[..|path|] == path;
    assert StateAfter(ops, path + [i]) == Some(t);
  }

  // ------------------------------------------------------------- one step of the search is exact

  lemma DoneCompletable(ops: seq<POp>, s: State)
    requires |ops| == |s.mask| && Done(ops, s.mask)
    ensures Completable(Left(ops, s.mask), s.value)
  {
    var rest := Enumerate(Left(ops, s.mask));
    forall i | 0 <= i < |rest| ensures rest[i].ret.None? {
      assert rest[i] in multiset(rest);
      var k := LeftIndex(ops, s.mask, rest[i]);
    }
    assert multiset([]) + multiset(rest) == Left(ops, s.mask);
    assert Completes(Left(ops, s.mask), s.value, [], rest);
  }

  lemma {:induction false} Enumerate(m: multiset<POp>) returns (s: seq<POp>)
    ensures multiset(s) == m
    decreases |m|
  {
    if m == multiset{} {
      s := [];
    } else {
      var x :| x in m;
      s := Enumerate(m - multiset{x});
      s := s + [x];
    }
  }

  /** A completion of a successor extends to a completion of the state. */
  lemma FollowerCompletes(ops: seq<POp>, s: State, i: nat, t: State)
    requires |ops| == |s.mask| && Follows(ops, s, i, t) && Completable(Left(ops, t.mask), t.value)
    ensures Completable(Left(ops, s.mask), s.value)
  {
    var order, rest :| Completes(Left(ops, t.mask), t.value, order, rest);
    var order2 := [ops[i]] + order;
    LeftMark(ops, s.mask, i);
    RunFront(s.value, ops[i], order);
    assert RealTime(order2) by {
      forall b | 0 <= b < |order| ensures !Precedes(order[b], ops[i]) {
        assert order[b] in multiset(order);
        var j := LeftIndex(ops, t.mask, order[b]);
      }
    }
    assert Completes(Left(ops, s.mask), s.value, order2, rest);
  }

  /** The first operation of a completion is a step the search takes. */
  lemma CompletionSteps(ops: seq<POp>, s: State, order: seq<POp>, rest: seq<POp>) returns (i: nat, t: State)
    requires |ops| == |s.mask| && Completes(Left(ops, s.mask), s.value, order, rest) && order != []
    ensures Follows(ops, s, i, t) && Completes(Left(ops, t.mask), t.value, order[1..], rest)
  {
    var x := order[0];
    assert order == [x] + order[1..];
    i := LeftIndex(ops, s.mask, x);
    RunFront(s.value, x, order[1..]);
    t := State(s.mask[i := true], TryApply(x.kind, s.value).value);
    LeftMark(ops, s.mask, i);
    CancelOne(multiset(order[1..]) + multiset(rest), Left(ops, t.mask), x);
    forall j | 0 <= j < |ops| && !s.mask[j] ensures !Precedes(ops[j], ops[i]) {
      LeftHas(ops, s.mask, j);
      if ops[j] in multiset(order) {
        var b :| 0 <= b < |order| && order[b] == ops[j];
        assert !Precedes(order[b], order[0]);
      } else {
        assert ops[j] in multiset(rest);
      }
    }
  }

  lemma CompletionDone(ops: seq<POp>, s: State, rest: seq<POp>)
    requires |ops| == |s.mask| && Completes(Left(ops, s.mask), s.value, [], rest)
    ensures Done(ops, s.mask)
  {
    forall i | 0 <= i < |ops| && ops[i].ret.Some? ensures s.mask[i] {
      if !s.mask[i] { LeftHas(ops, s.mask, i); }
    }
  }

  // ------------------------------------------------------------- what the search keeps

  /** Every state in the memo is not final and has all its successors in the memo or on the stack. */
  ghost predicate Explored(ops: seq<POp>, memo: set<State>, stack: seq<State>) {
    forall s :: s in memo ==>
      && |s.mask| == |ops|
      && !Done(ops, s.mask)
      && forall t :: IsFollower(ops, s, t) ==> t in memo || t in stack
  }

  /** A memo closed under successors holds no state that could be completed. */
  lemma {:induction false} ClosedMemo(ops: seq<POp>, memo: set<State>, s: State, order: seq<POp>, rest: seq<POp>)
    requires Explored(ops, memo, []) && s in memo
    ensures !Completes(Left(ops, s.mask), s.value, order, rest)
    decreases |order|
  {
    if Completes(Left(ops, s.mask), s.value, order, rest) {
      if order == [] {
        CompletionDone(ops, s, rest);
      } else {
        var i, t := CompletionSteps(ops, s, order, rest);
        ClosedMemo(ops, memo, t, order[1..], rest);
      }
    }
  }

  // ------------------------------------------------------------- sorting by invocation

  predicate SortedByInvoke(ops: seq<POp>) {
    forall i, j :: 0 <= i < j < |ops| ==> ops[i].invoke <= ops[j].invoke
  }

  /** Stable insertion of `x` after everything invoked no later. */
  function Insert(x: POp, ops: seq<POp>): (r: seq<POp>)
    requires SortedByInvoke(ops)
    ensures |r| == |ops| + 1 && SortedByInvoke(r)
    ensures r[|ops|].invoke == x.invoke || (ops != [] && r[|ops|] == ops[|ops| - 1])
  {
    if ops == [] || ops[|ops| - 1].invoke <= x.invoke then ops + [x]
    else Insert(x, ops[..|ops| - 1]) + [ops[|ops| - 1]]
  }

  lemma {:induction false} InsertKeeps(x: POp, ops: seq<POp>)
    requires SortedByInvoke(ops)
    ensures multiset(Insert(x, ops)) == multiset(ops) + multiset{x}
  {
    if ops != [] && ops[|ops| - 1].invoke > x.invoke {
      InsertKeeps(x, ops[..|ops| - 1]);
      TakeLast(ops);
    }
  }

  function SortByInvoke(ops: seq<POp>): (r: seq<POp>)
    ensures |r| == |ops| && SortedByInvoke(r)
  {
    if ops == [] then [] else Insert(ops[|ops| - 1], SortByInvoke(ops[..|ops| - 1]))
  }

  lemma {:induction false} SortKeeps(ops: seq<POp>)
    ensures multiset(SortByInvoke(ops)) == multiset(ops)
  {
    if ops != [] {
      SortKeeps(ops[..|ops| - 1]);
      InsertKeeps(ops[|ops| - 1], SortByInvoke(ops[..|ops| - 1]));
      TakeLast(ops);
    }
  }

  // ------------------------------------------------------------- the search

  /** The earliest return among the completed operations still left. */
  method MinRet(ops: seq<POp>, mask: seq<bool>) returns (m: Time)
    requires |ops| == |mask|
    ensures forall i: nat :: i < |ops| && !mask[i] ==> (ops[i].invoke <= m <==> Candidate(ops, mask, i))
  {
    m := MAX_TIME;
    for i := 0 to |ops|
      invariant forall j :: 0 <= j < i && !mask[j] && ops[j].ret.Some? ==> m <= ops[j].ret.value
      invariant m == MAX_TIME || exists j :: 0 <= j < i && !mask[j] && ops[j].ret == Some(m)
    {
      if mask[i] { continue; }
      if ops[i].ret.Some? && ops[i].ret.value < m { m := ops[i].ret.value; }
    }
  }

  /** Pushes every successor of `s` on the stack. */
  method PushSuccessors(ops: seq<POp>, s: State, stack: seq<State>) returns (r: seq<State>)
    requires |s.mask| == |ops|
    ensures |stack| <= |r| && r[..|stack|] == stack
    ensures forall k :: |stack| <= k < |r| ==> IsFollower(ops, s, r[k])
    ensures forall t :: IsFollower(ops, s, t) ==> t in r
  {
    var minRet := MinRet(ops, s.mask);
    r := stack;
    for i := 0 to |ops|
      invariant |stack| <= |r| && r[..|stack|] == stack
      invariant forall k :: |stack| <= k < |r| ==> IsFollower(ops, s, r[k])
      invariant forall j: nat, t :: j < i && Follows(ops, s, j, t) ==> t in r
    {
      if s.mask[i] || ops[i].invoke > minRet { continue; }
      var v := TryApply(ops[i].kind, s.value);
      if v.Some? {
        var t := State(s.mask[i := true], v.value);
        assert Follows(ops, s, i, t);
        assert IsFollower(ops, s, t);
        r := r + [t];
      }
    }
  }

  /** The search can reach `s`, and a completion of `s` would linearize all of `ops`. */
  ghost predicate Promising(ops: seq<POp>, s: State) {
    && |s.mask| == |ops| && Reachable(ops, s)
    && (Completable(Left(ops, s.mask), s.value) ==> Linearizable(ops))
  }

  ghost predicate AllPromising(ops: seq<POp>, states: seq<State>) {
    forall k :: 0 <= k < |states| ==> Promising(ops, states[k])
  }

  lemma FollowersPromising(ops: seq<POp>, s: State, stack: seq<State>, r: seq<State>)
    requires Promising(ops, s) && AllPromising(ops, stack) && |stack| <= |r| && r[..|stack|] == stack
    requires forall k :: |stack| <= k < |r| ==> IsFollower(ops, s, r[k])
    ensures AllPromising(ops, r)
  {
    forall k | 0 <= k < |r| ensures Promising(ops, r[k]) {
      if k < |stack| {
        assert r[k] == stack[k];
      } else {
        var i: nat :| Follows(ops, s, i, r[k]);
        FollowerReachable(ops, s, i, r[k]);
        if Completable(Left(ops, r[k].mask), r[k].value) { FollowerCompletes(ops, s, i, r[k]); }
      }
    }
  }

  /** What the search keeps, whatever is in the memo and on the stack. */
  ghost predicate Searching(ops: seq<POp>, memo: set<State>, stack: seq<State>) {
    var start := Start(ops);
    && AllPromising(ops, stack) && (forall s :: s in memo ==> Reachable(ops, s))
    && (start in memo || start in stack)
    && Explored(ops, memo, stack)
  }

  lemma SearchStarts(ops: seq<POp>)
    ensures Searching(ops, {}, [Start(ops)])
  {
    assert StateAfter(ops, []) == Some(Start(ops));
    LeftNothingMarked(ops, Start(ops).mask);
  }

  lemma SearchSucceeds(ops: seq<POp>, memo: set<State>, stack: seq<State>)
    requires Searching(ops, memo, stack) && stack != []
    ensures var s := stack[|stack| - 1];
            Promising(ops, s) && stack == stack[..|stack| - 1] + [s] && (Done(ops, s.mask) ==> Linearizable(ops))
  {
    var s := stack[|stack| - 1];
    assert Promising(ops, s);
    if Done(ops, s.mask) { DoneCompletable(ops, s); }
  }

  lemma SearchFails(ops: seq<POp>, memo: set<State>)
    requires Searching(ops, memo, [])
    ensures !Linearizable(ops)
  {
    LeftNothingMarked(ops, Start(ops).mask);
    forall order, rest ensures !Completes(multiset(ops), None, order, rest) {
      ClosedMemo(ops, memo, Start(ops), order, rest);
    }
  }

  lemma SearchSkips(ops: seq<POp>, memo: set<State>, rest: seq<State>, s: State)
    requires Searching(ops, memo, rest + [s]) && s in memo
    ensures Searching(ops, memo, rest)
  {
    assert forall k :: 0 <= k < |rest| ==> rest[k] == (rest + [s])[k];
  }

  lemma SearchExpands(ops: seq<POp>, memo: set<State>, rest: seq<State>, s: State, r: seq<State>)
    requires Searching(ops, memo, rest + [s]) && Promising(ops, s) && !Done(ops, s.mask)
    requires |rest| <= |r| && r[..|rest|] == rest
    requires forall k :: |rest| <= k < |r| ==> IsFollower(ops, s, r[k])
    requires forall t :: IsFollower(ops, s, t) ==> t in r
    ensures Searching(ops, memo + {s}, r)
  {
    assert AllPromising(ops, rest) by {
      assert forall k :: 0 <= k < |rest| ==> rest[k] == (rest + [s])[k];
    }
    FollowersPromising(ops, s, rest, r);
    assert forall t :: t in rest ==> t in r[..|rest|];
  }

  /** Depth-first search over what is linearized next, with a memo of visited states. */
  method Search(ops: seq<POp>) returns (r: Verdict)
    ensures r.Ok? ==> Linearizable(ops)
    ensures r.Err? ==> (r.error.BudgetExceeded? && ManyStates(ops)) || (r.error == NotLinearizable(ops) && !Linearizable(ops))
  {
    var memo: set<State> := {};
    var stack := [Start(ops)];
    var expansions := 0;
    SearchStarts(ops);
    while stack != []
      invariant Searching(ops, memo, stack)
      invariant |memo| == expansions <= EXPANSION_BUDGET
      decreases EXPANSION_BUDGET - expansions, |stack|
    {
      SearchSucceeds(ops, memo, stack);
      var s := stack[|stack| - 1];
      stack := stack[..|stack| - 1];
      if Done(ops, s.mask) { return Ok; }
      if s in memo {
        SearchSkips(ops, memo, stack, s);
        continue;
      }
      expansions := expansions + 1;
      if expansions > EXPANSION_BUDGET {
        BudgetReached(ops, memo, stack, s);
        return Err(BudgetExceeded(expansions, |ops|));
      }
      ghost var rest := stack;
      stack := PushSuccessors(ops, s, stack);
      SearchExpands(ops, memo, rest, s, stack);
      memo := memo + {s};
    }
    SearchFails(ops, memo);
    r := Err(NotLinearizable(ops));
  }

  /** The search visits more distinct states than the budget allows. */
  ghost predicate ManyStates(ops: seq<POp>) {
    exists seen: set<State> :: |seen| > EXPANSION_BUDGET && forall s :: s in seen ==> Reachable(ops, s)
  }

  lemma BudgetReached(ops: seq<POp>, memo: set<State>, rest: seq<State>, s: State)
    requires Searching(ops, memo, rest + [s]) && Promising(ops, s) && s !in memo && |memo| == EXPANSION_BUDGET
    ensures ManyStates(ops)
  {
    assert |memo + {s}| > EXPANSION_BUDGET;
  }

  /** Ok exactly when the operations are linearizable, unless there are too many operations or the
      search visits more distinct states than the budget allows. */
  method CheckKey(input: seq<POp>) returns (r: Verdict)
    ensures r.Ok? ==> Linearizable(input)
    ensures r.Err? && r.error.NotLinearizable? ==> !Linearizable(input) && r.error.report == SortByInvoke(input)
    ensures r.Err? && r.error.TooManyOps? <==> |input| > MAX_OPS
    ensures r.Err? && r.error.BudgetExceeded? ==> ManyStates(SortByInvoke(input))
    ensures r.Err? ==> r.error.TooManyOps? || r.error.BudgetExceeded? || r.error.NotLinearizable?
  {
    var ops := SortByInvoke(input);
    SortKeeps(input);
    if |ops| == 0 {
      assert Completes(multiset(input), None, [], []);
      return Ok;
    }
    if |ops| > MAX_OPS { return Err(TooManyOps(|ops|)); }
    r := Search(ops);
  }
}
