/** Log repair (crates/raft/src/node.rs:475-543, 780-835, 892-899): how many appends a follower may reject.

    Leader and follower exchange one message at a time.  A rejection skips every entry of the conflicting term at
    once, so each rejection after the first costs the follower one more of the distinct terms in its log. */
module RaftRepair {
  import opened Prelude
  import opened RaftTypes
  import opened RaftLogs
  import opened RaftCore
  import opened RaftHost
  import opened RaftProtocol
  import opened RaftActions
  import opened RaftSafety
  import opened RaftLeading
  import opened RaftCoupling
  import opened RaftClusterProof
  import opened RaftTheorems

  // ------------------------------------------------------------- what log matching says of two logs

  predicate Same(a: RaftLog, b: RaftLog, k: Index) { a.Get(k).Some? && b.Get(k).Some? ==> a.Get(k) == b.Get(k) }

  /** Equal terms at an index mean equal logs up to there, as far as both still hold entries. */
  ghost predicate Matching(a: RaftLog, b: RaftLog) {
    forall k, j :: j <= k && a.Get(k).Some? && b.Get(k).Some? && a.TermOf(k) == b.TermOf(k) ==> Same(a, b, j)
  }

  /** The follower's snapshot lies on the leader's history. */
  predicate SnapshotFits(a: RaftLog, b: RaftLog) {
    a.TermOf(b.snapIndex).Some? ==> a.TermOf(b.snapIndex) == Some(b.snapTerm)
  }

  ghost predicate TermsOrdered(log: RaftLog) {
    forall i, j :: 0 <= i <= j < |log.entries| ==> log.entries[i].term <= log.entries[j].term
  }

  ghost predicate Numbered(log: RaftLog) { forall k :: log.Get(k).Some? ==> log.Get(k).value.index == k }

  /** The distinct terms of the entries up to `p`. */
  function TermsTo(log: RaftLog, p: Index): set<Term> {
    set i | 0 <= i < |log.entries| && log.snapIndex + 1 + i <= p :: log.entries[i].term
  }

  function DistinctTerms(log: RaftLog): set<Term> { TermsTo(log, log.LastIndex()) }

  // ------------------------------------------------------------- the conflict hint

  lemma {:induction false} HintAt(log: RaftLog, c: Index, t: Term)
    requires log.snapIndex < c <= log.LastIndex() && log.TermOf(c) == Some(t)
    ensures var h := ConflictHint(log, c, t);
            && log.snapIndex < h <= c && log.TermOf(h) == Some(t)
            && (h == log.FirstIndex() || log.TermOf(h - 1) != Some(t))
    decreases c
  {
    if c > log.FirstIndex() && log.TermOf(c - 1) == Some(t) { HintAt(log, c - 1, t); }
  }

  /** Below the hint the conflicting term does not occur any more. */
  lemma HintSkipsTerm(log: RaftLog, c: Index, t: Term)
    requires log.snapIndex < c <= log.LastIndex() && log.TermOf(c) == Some(t) && TermsOrdered(log)
    ensures log.snapIndex < ConflictHint(log, c, t) <= c
    ensures t in TermsTo(log, c) && TermsTo(log, ConflictHint(log, c, t) - 1) <= TermsTo(log, c) - {t}
  {
    HintAt(log, c, t);
    var h := ConflictHint(log, c, t);
    assert log.entries[c - log.snapIndex - 1].term == t;
    forall i | 0 <= i < |log.entries| && log.snapIndex + 1 + i <= h - 1 ensures log.entries[i].term != t {
      assert log.entries[i].term <= log.entries[h - 1 - log.snapIndex - 1].term;
      assert log.entries[h - 1 - log.snapIndex - 1].term <= log.entries[h - log.snapIndex - 1].term;
    }
  }

  // ------------------------------------------------------------- one message each way

  /** `m` is an append the leader may send: it names an index the leader's log knows and carries what follows it. */
  ghost predicate Probes(l: Node, to: NodeId, m: Message) {
    && m.body.AppendEntries? && m.from == l.cfg.id && m.to == to && m.term == l.hs.term
    && l.log.TermOf(m.body.prevLogIndex) == Some(m.body.prevLogTerm)
    && forall j :: 0 <= j < |m.body.entries| ==> l.log.Get(m.body.prevLogIndex + 1 + j) == Some(m.body.entries[j])
  }

  /** A leader and a follower with log matching between them. */
  ghost predicate Facing(l: Node, f: Node) {
    && l.role == Leader && f.cfg.id in l.prs && !l.prs[f.cfg.id].pendingSnapshot && f.hs.term <= l.hs.term
    && l.out == NO_OUTPUT && f.out == NO_OUTPUT
    && Matching(l.log, f.log) && SnapshotFits(l.log, f.log) && TermsOrdered(f.log) && Numbered(l.log)
    && (l.log.snapIndex > 0 ==> l.snapshot.Some?)
  }

  /** One moment of the exchange: the leader's message is under way to the follower. */
  datatype Turn = Turn(l: Node, f: Node, m: Message) {
    ghost predicate Ready() { Facing(l, f) && Probes(l, f.cfg.id, m) }
    function Prev(): Index { if m.body.AppendEntries? then m.body.prevLogIndex else 0 }
  }

  function Emptied(n: Node): Node { n.(out := NO_OUTPUT) }

  /** The follower answers with a rejection and the leader answers that with its next message. */
  ghost predicate Rejection(a: Turn, b: Turn) {
    exists rnd: nat, rnd2: nat, r :: RejectionBy(a, b, rnd, rnd2, r)
  }

  ghost predicate RejectionBy(a: Turn, b: Turn, rnd: nat, rnd2: nat, r: Message) {
    && RaftCore.Step(a.f, a.m, rnd).out.messages == [r] && r.body.AppendEntriesResp? && !r.body.success
    && b.f == Emptied(RaftCore.Step(a.f, a.m, rnd))
    && b.l == Emptied(RaftCore.Step(a.l, r, rnd2)) && RaftCore.Step(a.l, r, rnd2).out.messages == [b.m]
  }

  predicate Refused(f: Node, m: Message)
    requires m.body.AppendEntries?
  {
    m.body.prevLogIndex >= f.log.snapIndex && f.log.TermOf(m.body.prevLogIndex) != Some(m.body.prevLogTerm)
  }

  function Hint(f: Node, p: Index): Index {
    match f.log.TermOf(p)
    case None => f.log.LastIndex() + 1
    case Some(t) => ConflictHint(f.log, p, t)
  }

  /** A follower refuses exactly when its log does not hold the term the append starts from; its log stays as it was. */
  lemma FollowerRefuses(f: Node, m: Message, rnd: nat)
    requires f.out == NO_OUTPUT && m.body.AppendEntries? && f.hs.term <= m.term && Refused(f, m)
    ensures var g := RaftCore.Step(f, m, rnd);
            && g.out.messages == [Message(f.cfg.id, m.from, m.term, AppendEntriesResp(false, 0, Hint(f, m.body.prevLogIndex), m.body.readCtx))]
            && g.log == f.log && g.cfg == f.cfg && g.hs.term == m.term
  {
    var c := AppendStep(f, m, rnd);
    assert Heard(c, m.from).log == f.log;
  }

  lemma AppendStep(f: Node, m: Message, rnd: nat) returns (c: Node)
    requires f.out == NO_OUTPUT && m.body.AppendEntries? && f.hs.term <= m.term
    ensures c.log == f.log && c.out.messages == [] && c.hs.term == m.term && c.cfg == f.cfg
    ensures RaftCore.Step(f, m, rnd) ==
            HandleAppend(c, m.from, m.body.prevLogIndex, m.body.prevLogTerm, m.body.entries, m.body.leaderCommit, m.body.readCtx, rnd)
  {
    c := CatchUp(f, m, rnd);
  }

  lemma AcceptedAt(n: Node, from: NodeId, prev: Index, prevTerm: Term, es: seq<Entry>, lc: Index, ctx: nat, rnd: nat)
    requires n.log.TermOf(prev) == Some(prevTerm) && n.out.messages == []
    ensures var g := AppendAt(n, from, prev, prevTerm, es, lc, ctx, rnd);
            g.log == Merged(n.log, es) && g.out.messages == [Message(n.cfg.id, from, n.hs.term, AppendEntriesResp(true, prev + |es|, 0, ctx))]
  {
    var a := Absorb(n, es);
    var c := CommitUpTo(a, Min(lc, prev + |es|), rnd);
    assert c.log == a.log && c.out.messages == [] && c.hs.term == n.hs.term && c.cfg == n.cfg;
  }

  /** What an accepted append adds above the follower's snapshot. */
  function Added(log: RaftLog, prev: Index, es: seq<Entry>): seq<Entry> {
    if prev >= log.snapIndex then es else es[Min(log.snapIndex - prev, |es|)..]
  }

  /** Node `id` of term `t` has merged the batch into `log` and acknowledged it. */
  ghost predicate Took(log: RaftLog, id: NodeId, t: Term, from: NodeId, prev: Index, es: seq<Entry>, ctx: nat, g: Node) {
    var added := Added(log, prev, es);
    var took := && g.log == Merged(log, added)
                && g.out.messages == [Message(id, from, t, AppendEntriesResp(true, Max(prev, log.snapIndex) + |added|, 0, ctx))];
    took
  }

  lemma HandledAppend(c: Node, from: NodeId, prev: Index, prevTerm: Term, es: seq<Entry>, lc: Index, ctx: nat, rnd: nat)
    requires c.out.messages == [] && (prev < c.log.snapIndex || c.log.TermOf(prev) == Some(prevTerm))
    ensures Took(c.log, c.cfg.id, c.hs.term, from, prev, es, ctx, HandleAppend(c, from, prev, prevTerm, es, lc, ctx, rnd))
  {
    var h := Heard(c, from);
    if prev >= c.log.snapIndex { AcceptedAt(h, from, prev, prevTerm, es, lc, ctx, rnd); }
    else if c.log.snapIndex - prev < |es| { AcceptedAt(h, from, c.log.snapIndex, c.log.snapTerm, Added(c.log, prev, es), lc, ctx, rnd); }
    else { assert Added(c.log, prev, es) == []; }
  }

  lemma FollowerTakes(f: Node, m: Message, rnd: nat)
    requires f.out == NO_OUTPUT && m.body.AppendEntries? && f.hs.term <= m.term && !Refused(f, m)
    ensures Took(f.log, f.cfg.id, m.term, m.from, m.body.prevLogIndex, m.body.entries, m.body.readCtx, RaftCore.Step(f, m, rnd))
  {
    var c := AppendStep(f, m, rnd);
    HandledAppend(c, m.from, m.body.prevLogIndex, m.body.prevLogTerm, m.body.entries, m.body.leaderCommit, m.body.readCtx, rnd);
  }

  // ------------------------------------------------------------- the leader's next message

  /** A rejection makes the leader try again just below the hint, with an append or with its snapshot. */
  lemma LeaderRetries(l: Node, from: NodeId, r: Message, rnd: nat, hint: Index) returns (m: Message)
    requires l.role == Leader && from in l.prs && !l.prs[from].pendingSnapshot && l.out == NO_OUTPUT
    requires (l.log.snapIndex > 0 ==> l.snapshot.Some?) && 0 < hint <= l.log.LastIndex() + 1
    requires r.from == from && r.term == l.hs.term && r.body.AppendEntriesResp? && !r.body.success && r.body.conflictIndex == hint
    ensures var k := RaftCore.Step(l, r, rnd);
            && k.out.messages == [m] && m.from == l.cfg.id && m.to == from && m.term == l.hs.term
            && k.log == l.log && k.role == Leader && k.hs == l.hs && k.cfg == l.cfg && k.snapshot == l.snapshot && from in k.prs
            && (hint <= l.log.snapIndex ==> m.body == InstallSnapshot(l.snapshot.value))
            && (hint > l.log.snapIndex ==> !k.prs[from].pendingSnapshot && Probes(l, from, m) && m.body.prevLogIndex == hint - 1)
  {
    var pr := Credited(l.prs[from], r.body.readCtx).(next := hint, inflight := 0);
    var k := RaftCore.Step(l, r, rnd);
    assert k == SendAppend(WithProgress(l, from, pr), from);
    m := k.out.messages[0];
    if hint > l.log.snapIndex { BatchFollows(l, pr); }
  }

  lemma BatchFollows(l: Node, pr: Progress)
    requires pr.next > l.log.snapIndex
    ensures forall j :: 0 <= j < |Batch(l, pr)| ==> l.log.Get(pr.next + j) == Some(Batch(l, pr)[j])
  {}

  // ------------------------------------------------------------- merging

  lemma {:induction false} FirstNewSplits(log: RaftLog, es: seq<Entry>)
    ensures var i := FirstNew(log, es);
            && i <= |es| && (forall j :: 0 <= j < i ==> log.TermOf(es[j].index) == Some(es[j].term))
            && (i < |es| ==> log.TermOf(es[i].index) != Some(es[i].term))
    decreases |es|
  {
    if es != [] { FirstNewSplits(log, es[1..]); }
  }

  /** Merging entries that follow `p` keeps the log up to `p` and puts them, or entries of the same terms, above it. */
  lemma MergedAt(log: RaftLog, p: Index, es: seq<Entry>, k: Index)
    requires log.snapIndex <= p <= log.LastIndex() && forall j :: 0 <= j < |es| ==> es[j].index == p + 1 + j
    ensures k <= p ==> Merged(log, es).Get(k) == log.Get(k)
    ensures p < k <= p + |es| ==> Merged(log, es).Get(k) == Some(es[k - p - 1]) ||
                                   (Merged(log, es).Get(k) == log.Get(k) && log.TermOf(k) == Some(es[k - p - 1].term))
  {
    FirstNewSplits(log, es);
    var i := FirstNew(log, es);
    if i < |es| {
      if i > 0 { assert log.TermOf(es[i - 1].index) == Some(es[i - 1].term); }
      if i <= k - p - 1 < |es| { assert es[i..][k - p - 1 - i] == es[k - p - 1]; }
    }
    if 0 <= k - p - 1 < i { assert log.TermOf(es[k - p - 1].index) == Some(es[k - p - 1].term); }
  }

  // ------------------------------------------------------------- the exchange

  /** The next probe starts at the end of the follower's log, or below every entry of one more of its terms. */
  ghost predicate Falls(a: Turn, b: Turn) {
    var log := a.f.log;
    if a.Prev() > log.LastIndex() then b.Prev() == log.LastIndex()
    else b.Prev() <= log.LastIndex() && exists t :: t in TermsTo(log, a.Prev()) && TermsTo(log, b.Prev()) <= TermsTo(log, a.Prev()) - {t}
  }

  lemma HintFalls(a: Turn)
    requires a.Ready() && Refused(a.f, a.m)
    ensures 0 < Hint(a.f, a.Prev()) <= a.Prev()
    ensures forall b: Turn :: b.Prev() == Hint(a.f, a.Prev()) - 1 ==> Falls(a, b)
    ensures a.Prev() <= a.f.log.LastIndex() ==> TermsTo(a.f.log, a.Prev()) != {}
  {
    var log, p := a.f.log, a.Prev();
    assert p > log.snapIndex;
    if p <= log.LastIndex() {
      var t := log.TermOf(p).value;
      HintSkipsTerm(log, p, t);
    }
  }

  lemma RoundRejects(a: Turn, rnd: nat, rnd2: nat) returns (b: Turn, r: Message)
    requires a.Ready() && Refused(a.f, a.m)
    ensures RejectionBy(a, b, rnd, rnd2, r) && b.f.log == a.f.log && b.m.to == a.f.cfg.id
    ensures b.m.body.InstallSnapshot? || (b.Ready() && Falls(a, b))
  {
    FollowerRefuses(a.f, a.m, rnd);
    HintFalls(a);
    r := RaftCore.Step(a.f, a.m, rnd).out.messages[0];
    var m := LeaderRetries(a.l, a.f.cfg.id, r, rnd2, Hint(a.f, a.Prev()));
    b := Turn(Emptied(RaftCore.Step(a.l, r, rnd2)), Emptied(RaftCore.Step(a.f, a.m, rnd)), m);
  }

  lemma RejectionFalls(a: Turn, b: Turn)
    requires a.Ready() && Rejection(a, b)
    ensures Refused(a.f, a.m) && b.f.log == a.f.log && (b.m.body.InstallSnapshot? || (b.Ready() && Falls(a, b)))
  {
    var rnd: nat, rnd2: nat, r :| RejectionBy(a, b, rnd, rnd2, r);
    if !Refused(a.f, a.m) { FollowerTakes(a.f, a.m, rnd); }
    var b2, r2 := RoundRejects(a, rnd, rnd2);
  }

  lemma SnapshotAnswer(f: Node, m: Message, rnd: nat)
    requires f.out == NO_OUTPUT && m.body.InstallSnapshot?
    ensures forall x :: x in RaftCore.Step(f, m, rnd).out.messages ==> x.body.InstallSnapshotResp?
  {
    if m.term < f.hs.term {
      assert RaftCore.Step(f, m, rnd) == f;
    } else {
      var c := CatchUp(f, m, rnd);
      SnapshotStep(f, m, rnd, c);
      SnapshotReply(c, m.from, m.body.snapshot, rnd);
    }
  }

  lemma SnapshotStep(f: Node, m: Message, rnd: nat, c: Node)
    requires f.out == NO_OUTPUT && m.body.InstallSnapshot? && f.hs.term <= m.term && c == CatchUp(f, m, rnd)
    ensures c.out.messages == [] && RaftCore.Step(f, m, rnd) == HandleSnapshot(c, m.from, m.body.snapshot, rnd)
  {}

  lemma SnapshotReply(c: Node, from: NodeId, s: Snapshot, rnd: nat)
    requires c.out.messages == []
    ensures forall x :: x in HandleSnapshot(c, from, s, rnd).out.messages ==> x.body.InstallSnapshotResp?
  {}

  lemma SnapshotNotRejected(a: Turn, b: Turn)
    requires a.f.out == NO_OUTPUT && a.m.body.InstallSnapshot?
    ensures !Rejection(a, b)
  {
    forall rnd: nat, rnd2: nat, r ensures !RejectionBy(a, b, rnd, rnd2, r) {
      SnapshotAnswer(a.f, a.m, rnd);
      assert r in [r];
    }
  }

  ghost predicate Exchange(ts: seq<Turn>) {
    ts != [] && ts[0].Ready() && forall i :: 0 <= i < |ts| - 1 ==> Rejection(ts[i], ts[i + 1])
  }

  lemma {:induction false} RejectionsLeft(ts: seq<Turn>, i: nat)
    requires Exchange(ts) && i < |ts| && ts[i].Ready() && ts[i].Prev() <= ts[i].f.log.LastIndex()
    ensures |ts| - 1 - i <= |TermsTo(ts[i].f.log, ts[i].Prev())|
    decreases |ts| - i
  {
    if i < |ts| - 1 {
      var a, b := ts[i], ts[i + 1];
      RejectionFalls(a, b);
      HintFalls(a);
      var ta, tb := TermsTo(a.f.log, a.Prev()), TermsTo(a.f.log, b.Prev());
      if b.m.body.InstallSnapshot? {
        if i + 1 < |ts| - 1 { SnapshotNotRejected(b, ts[i + 2]); }
        assert |ta| > 0;
      } else {
        RejectionsLeft(ts, i + 1);
        var t :| t in ta && tb <= ta - {t};
        SubsetTerms(tb, ta - {t});
      }
    }
  }

  lemma SubsetTerms(a: set<Term>, b: set<Term>)
    requires a <= b
    ensures |a| <= |b|
  {
    assert b == a + (b - a);
  }

  /** A follower rejects at most one time more than the number of distinct terms in its log. */
  lemma RepairBound(ts: seq<Turn>)
    requires Exchange(ts)
    ensures |ts| - 1 <= 1 + |DistinctTerms(ts[0].f.log)|
  {
    var a := ts[0];
    if a.Prev() <= a.f.log.LastIndex() {
      RejectionsLeft(ts, 0);
      SubsetTerms(TermsTo(a.f.log, a.Prev()), DistinctTerms(a.f.log));
    } else if |ts| > 1 {
      RejectionFalls(a, ts[1]);
      if ts[1].m.body.InstallSnapshot? {
        if |ts| > 2 { SnapshotNotRejected(ts[1], ts[2]); }
      } else {
        RejectionsLeft(ts, 1);
      }
    }
  }

  lemma MergedSame(l: RaftLog, log: RaftLog, p: Index, es: seq<Entry>, k: Index)
    requires Matching(l, log) && log.snapIndex <= p <= log.LastIndex() && (p == log.snapIndex || l.TermOf(p) == log.TermOf(p))
    requires forall j :: 0 <= j < |es| ==> l.Get(p + 1 + j) == Some(es[j]) && es[j].index == p + 1 + j
    ensures k <= p + |es| ==> Same(l, Merged(log, es), k)
  {
    MergedAt(log, p, es, k);
    if k <= p {
      if l.Get(p).Some? && log.Get(p).Some? { assert Same(l, log, k); }
    } else if k <= p + |es| {
      assert l.Get(k) == Some(es[k - p - 1]);
      assert l.Get(k).Some? && log.Get(k).Some? && l.TermOf(k) == log.TermOf(k) ==> Same(l, log, k);
    }
  }

  predicate Acknowledges(g: Node, i: Index) {
    |g.out.messages| == 1 && g.out.messages[0].body.AppendEntriesResp? && g.out.messages[0].body.success && g.out.messages[0].body.matchIndex == i
  }

  ghost predicate SameUpTo(a: RaftLog, b: RaftLog, i: Index) { forall k: Index :: k <= i ==> Same(a, b, k) }

  lemma MergedEqual(a: Turn, p: Index, es: seq<Entry>)
    requires a.Ready() && !Refused(a.f, a.m) && p == Max(a.Prev(), a.f.log.snapIndex) && es == Added(a.f.log, a.Prev(), a.m.body.entries)
    ensures a.Prev() + |a.m.body.entries| <= p + |es| <= Merged(a.f.log, es).LastIndex()
    ensures SameUpTo(a.l.log, Merged(a.f.log, es), p + |es|)
  {
    AddedFollows(a);
    MergedLong(a.f.log, p, es);
    forall k: Index | k <= p + |es| ensures Same(a.l.log, Merged(a.f.log, es), k) { MergedSame(a.l.log, a.f.log, p, es, k); }
  }

  /** An accepted append makes the two logs equal up to the acknowledged index. */
  lemma AcceptedEqual(a: Turn, rnd: nat) returns (g: Node, i: Index)
    requires a.Ready() && !Refused(a.f, a.m)
    ensures g == RaftCore.Step(a.f, a.m, rnd) && Acknowledges(g, i)
    ensures a.Prev() + |a.m.body.entries| <= i <= g.log.LastIndex() && SameUpTo(a.l.log, g.log, i)
  {
    FollowerTakes(a.f, a.m, rnd);
    var es := Added(a.f.log, a.Prev(), a.m.body.entries);
    g := RaftCore.Step(a.f, a.m, rnd);
    i := Max(a.Prev(), a.f.log.snapIndex) + |es|;
    MergedEqual(a, Max(a.Prev(), a.f.log.snapIndex), es);
  }

  lemma AddedFollows(a: Turn)
    requires a.Ready() && !Refused(a.f, a.m)
    ensures var es, p := Added(a.f.log, a.Prev(), a.m.body.entries), Max(a.Prev(), a.f.log.snapIndex);
            forall j :: 0 <= j < |es| ==> a.l.log.Get(p + 1 + j) == Some(es[j]) && es[j].index == p + 1 + j
  {
    var es, p := Added(a.f.log, a.Prev(), a.m.body.entries), Max(a.Prev(), a.f.log.snapIndex);
    forall j | 0 <= j < |es| ensures a.l.log.Get(p + 1 + j) == Some(es[j]) && es[j].index == p + 1 + j {
      assert es[j] == a.m.body.entries[p - a.Prev() + j];
    }
  }

  lemma MergedLong(log: RaftLog, p: Index, es: seq<Entry>)
    requires log.snapIndex <= p <= log.LastIndex() && forall j :: 0 <= j < |es| ==> es[j].index == p + 1 + j
    ensures p + |es| <= Merged(log, es).LastIndex()
  {
    if es != [] { MergedAt(log, p, es, p + |es|); }
    FirstNewSplits(log, es);
  }

  /** From any moment of the exchange: either the append is accepted, or the leader has a next message for the
      follower, and that is its snapshot or a probe with which the exchange goes on. */
  lemma RepairGoesOn(a: Turn, rnd: nat, rnd2: nat) returns (b: Turn)
    requires a.Ready()
    ensures !Refused(a.f, a.m) || (Rejection(a, b) && b.m.to == a.f.cfg.id && (b.m.body.InstallSnapshot? || b.Ready()))
  {
    b := a;
    if Refused(a.f, a.m) {
      var r;
      b, r := RoundRejects(a, rnd, rnd2);
    }
  }

  // ------------------------------------------------------------- in every run

  lemma OrderedView(w: World, n: Node, log: seq<Entry>)
    requires Safe(w) && LogView(n.log, log) && LogOk(w.reigns, log)
    ensures TermsOrdered(n.log) && Numbered(n.log)
  {
    forall i, j | 0 <= i <= j < |n.log.entries| ensures n.log.entries[i].term <= n.log.entries[j].term {
      var s := n.log.snapIndex;
      var t := log[s + j].term;
      assert Sourced(w.reigns, log, s + j + 1) && ReignOk(w, t);
      var lead := w.reigns[t].log;
      assert log[s + i] == log[..s + j + 1][s + i] == lead[..s + j + 1][s + i] == lead[s + i];
    }
    forall k | n.log.Get(k).Some? ensures n.log.Get(k).value.index == k { assert Sourced(w.reigns, log, k); }
  }

  lemma SnapshotFitsView(w: World, a: NodeId, l: Node, b: NodeId, f: Node)
    requires Safe(w) && Known(w, a, l) && Known(w, b, f) && l.role == Leader && f.hs.term <= l.hs.term
    ensures SnapshotFits(l.log, f.log)
  {
    var la, lf, s := w.peers[a].log, w.peers[b].log, f.log.snapIndex;
    CommittedInReign(w, lf, f.commit, l.hs.term);
    LogViewFacts(l.log, la);
    assert s > 0 ==> lf[s - 1] == lf[..f.commit][s - 1] == la[..f.commit][s - 1] == la[s - 1];
  }

  /** Log matching holds between a leader and any node of no later term, so the bounds above apply in every run. */
  lemma FacingInRun(cs: seq<Cluster>, evs: seq<Event>, compacts: seq<bool>, i: nat, a: NodeId, b: NodeId, l: Node, f: Node)
    requires Run(cs, evs, compacts) && i <= |evs| && a in cs[i].hosts && b in cs[i].hosts
    requires cs[i].hosts[a].raft == Some(l) && cs[i].hosts[b].raft == Some(f)
    requires l.role == Leader && b in l.prs && !l.prs[b].pendingSnapshot && f.hs.term <= l.hs.term
    ensures Facing(l, f)
  {
    var c := cs[i];
    var w := RunGood(cs, evs, compacts, i);
    GoodSafe(c, w);
    GoodKnown(c, w, a);
    GoodKnown(c, w, b);
    UpFacts(c, w, a, l);
    UpFacts(c, w, b, f);
    OrderedView(w, l, w.peers[a].log);
    OrderedView(w, f, w.peers[b].log);
    SnapshotFitsView(w, a, l, b, f);
    forall k, j | j <= k && l.log.Get(k).Some? && f.log.Get(k).Some? && l.log.TermOf(k) == f.log.TermOf(k) ensures Same(l.log, f.log, j) {
      var la, lb := LogsMatch(cs, evs, compacts, i, a, i, b, k);
      assert SameEntry(l, f, j);
    }
  }

  lemma UpFacts(c: Cluster, w: World, v: NodeId, n: Node)
    requires Good(c, w) && v in c.hosts && c.hosts[v].raft == Some(n)
    ensures v in c.cfgs && n.out == NO_OUTPUT && n.cfg.id == v && (n.log.snapIndex > 0 ==> n.snapshot.Some?)
  {
    assert HostOk(w, c.voters, c.cfgs[v], c.hosts[v]);
    assert UpOk(w, c.voters, c.cfgs[v].id, c.hosts[v], n);
  }
}
