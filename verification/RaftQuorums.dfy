/** The quorum rules of a leader (crates/raft/src/node.rs:439-463, 545-570) as counting.

    The code sorts what the voters acknowledged, largest first, and takes the entry at the quorum position.  That
    is the largest value a majority has reached; commits and reads are decided by it exactly. */
module RaftQuorums {
  import opened Prelude
  import opened RaftTypes
  import opened RaftLogs
  import opened RaftCore

  /** How many of the numbers reach `c`. */
  function CountAtLeast(s: seq<nat>, c: nat): nat {
    if s == [] then 0 else (if s[0] >= c then 1 else 0) + CountAtLeast(s[1..], c)
  }

  ghost predicate Descending(s: seq<nat>) { forall i, j :: 0 <= i <= j < |s| ==> s[i] >= s[j] }

  lemma {:induction false} InsertCount(x: nat, s: seq<nat>, c: nat)
    ensures CountAtLeast(InsertDesc(x, s), c) == CountAtLeast(s, c) + (if x >= c then 1 else 0)
    ensures |InsertDesc(x, s)| == |s| + 1
    decreases |s|
  {
    if s == [] || x >= s[0] {
      assert ([x] + s)[1..] == s;
    } else {
      InsertCount(x, s[1..], c);
      assert ([s[0]] + InsertDesc(x, s[1..]))[1..] == InsertDesc(x, s[1..]);
    }
  }

  lemma {:induction false} InsertDescends(x: nat, s: seq<nat>)
    requires Descending(s)
    ensures Descending(InsertDesc(x, s)) && InsertDesc(x, s) != []
    ensures InsertDesc(x, s)[0] == if s == [] then x else Max(x, s[0])
    decreases |s|
  {
    if s != [] && x < s[0] { InsertDescends(x, s[1..]); }
  }

  lemma {:induction false} SortFacts(s: seq<nat>, c: nat)
    ensures CountAtLeast(SortDesc(s), c) == CountAtLeast(s, c) && |SortDesc(s)| == |s| && Descending(SortDesc(s))
    decreases |s|
  {
    if s != [] {
      SortFacts(s[1..], c);
      InsertCount(s[0], SortDesc(s[1..]), c);
      InsertDescends(s[0], SortDesc(s[1..]));
    }
  }

  lemma {:induction false} DescendingCount(s: seq<nat>, c: nat, k: nat)
    requires Descending(s) && k < |s|
    ensures s[k] >= c <==> CountAtLeast(s, c) > k
    decreases |s|
  {
    if s[0] < c {
      NoneReach(s, c);
      assert s[k] <= s[0];
    } else if k > 0 {
      DescendingCount(s[1..], c, k - 1);
    }
  }

  lemma {:induction false} NoneReach(s: seq<nat>, c: nat)
    requires forall i :: 0 <= i < |s| ==> s[i] < c
    ensures CountAtLeast(s, c) == 0
    decreases |s|
  {
    if s != [] { NoneReach(s[1..], c); }
  }

  ghost predicate Majority(s: seq<nat>, c: nat) { 2 * CountAtLeast(s, c) > |s| }

  /** The entry at the quorum position reaches `c` exactly when a majority does. */
  lemma QuorumPosition(s: seq<nat>, c: nat)
    requires s != []
    ensures |SortDesc(s)| == |s| && (SortDesc(s)[|s| / 2] >= c <==> Majority(s, c))
  {
    SortFacts(s, c);
    DescendingCount(SortDesc(s), c, |s| / 2);
  }

  /** The commit rule: of the indexes a majority holds the leader takes the largest, and only if it is new and of the
      leader's own term (section 5.4.2 of the Raft paper). */
  lemma CommitRule(n: Node, rnd: nat, c: Index)
    requires n.role == Leader && Voters(n) != []
    requires Majority(Matches(n, Voters(n)), c) && !Majority(Matches(n, Voters(n)), c + 1)
    ensures MaybeAdvance(n, rnd) == if c > n.commit && n.log.TermOf(c) == Some(n.hs.term) then AdvanceCommit(n, c, rnd) else n
  {
    QuorumPosition(Matches(n, Voters(n)), c);
    QuorumPosition(Matches(n, Voters(n)), c + 1);
  }

  lemma {:induction false} WaitingExactly(pending: seq<PendingRead>, ctx: nat, p: PendingRead)
    ensures p in WaitingReads(pending, ctx) <==> p in pending && p.ctx > ctx
    decreases |pending|
  {
    if pending != [] {
      WaitingExactly(pending[1..], ctx, p);
      assert pending == [pending[0]] + pending[1..];
    }
  }

  lemma {:induction false} ReadyExactly(pending: seq<PendingRead>, ctx: nat, p: PendingRead)
    requires p in pending && p.ctx <= ctx
    ensures ReadState(p.id, p.index) in ReadyReads(pending, ctx)
    decreases |pending|
  {
    if p != pending[0] {
      assert p in pending[1..];
      ReadyExactly(pending[1..], ctx, p);
    }
  }

  /** The release rule: a pending read goes out exactly when a majority of the voters, the leader counted by its own
      round, has confirmed the read's round or a later one, whenever and for whatever these confirmations came. */
  lemma ReleaseRule(n: Node, p: PendingRead)
    requires p in n.pendingReads && p.ctx > 0
    ensures p !in ProcessReadAcks(n).pendingReads <==> Majority(ReadAcks(n, Voters(n)), p.ctx)
    ensures p !in ProcessReadAcks(n).pendingReads ==> ReadState(p.id, p.index) in ProcessReadAcks(n).out.readStates
  {
    var acks := ReadAcks(n, Voters(n));
    if acks != [] {
      QuorumPosition(acks, p.ctx);
      var ctx := SortDesc(acks)[|acks| / 2];
      WaitingExactly(n.pendingReads, ctx, p);
      if p.ctx <= ctx { ReadyExactly(n.pendingReads, ctx, p); }
    } else {
      assert SortDesc(acks) == [];
    }
  }
}
