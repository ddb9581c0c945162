/** What each message, tick and request does, stated on the node's fields (crates/raft/src/node.rs).

    Every lemma takes one entry point of the node and says what a host can observe of it: term and vote, log,
    commit, progress and the output.  The right-hand sides speak of the log's own queries and of counting voters
    only, so they hold of the node whatever way it computes them. */
module RaftRules {
  import opened Prelude
  import opened RaftTypes
  import opened RaftLogs
  import opened RaftCore
  import opened RaftRepair
  import opened RaftQuorums
  import Kvsm

  // ------------------------------------------------------------- notions

  /** The commit of `g` is `hi`, and to what was emitted before, `was`, it has added exactly the entries of its log
      above `lo` up to there, in order. */
  ghost predicate Emits(was: seq<Entry>, g: Node, lo: Index, hi: Index) {
    var n, now := |was|, g.out.committed;
    var extent := g.commit == hi && lo <= hi && |now| == n + (hi - lo) && now[..n] == was;
    extent && forall k :: lo < k <= hi ==> g.log.Get(k) == Some(now[n + k - lo - 1])
  }

  /** The candidate's last entry is not older than the node's: terms first, then indexes. */
  predicate AsGood(n: Node, lastIndex: Index, lastTerm: Term) {
    n.log.LastTerm() < lastTerm || (n.log.LastTerm() == lastTerm && n.log.LastIndex() <= lastIndex)
  }

  /** The node only sent this one message. */
  ghost predicate OnlySends(n: Node, g: Node, to: NodeId, term: Term, body: Body) {
    g == n.(out := n.out.(messages := n.out.messages + [Message(n.cfg.id, to, term, body)]))
  }

  /** The last message of `g`, the only one since `n`. */
  ghost predicate Answers(n: Node, g: Node, to: NodeId, term: Term, body: Body) {
    g.out.messages == n.out.messages + [Message(n.cfg.id, to, term, body)]
  }

  // ------------------------------------------------------------- committing

  lemma {:induction false} BetweenAt(log: RaftLog, lo: Index, hi: Index)
    requires log.snapIndex <= lo <= hi <= log.LastIndex()
    ensures |Between(log, lo, hi)| == hi - lo
    ensures forall k :: lo < k <= hi ==> log.Get(k) == Some(Between(log, lo, hi)[k - lo - 1])
    decreases hi
  {
    if lo < hi { BetweenAt(log, lo, hi - 1); }
  }

  /** Advancing the commit of a node that does not lead. */
  lemma FollowerAdvances(n: Node, c: Index, rnd: nat) returns (g: Node)
    requires n.role != Leader && n.log.snapIndex <= n.commit <= c <= n.log.LastIndex()
    ensures g == AdvanceCommit(n, c, rnd) && Emits(n.out.committed, g, n.commit, c) && g == n.(commit := c, out := n.out.(committed := g.out.committed))
  {
    BetweenAt(n.log, n.commit, c);
    g := AdvanceCommit(n, c, rnd);
  }

  // ------------------------------------------------------------- appends

  /** The node holds the entry the append starts from, or has folded it into its snapshot. */
  predicate Accepts(f: Node, m: Message)
    requires m.body.AppendEntries?
  {
    m.body.prevLogIndex < f.log.snapIndex || f.log.TermOf(m.body.prevLogIndex) == Some(m.body.prevLogTerm)
  }

  /** The append says something about the log above the snapshot. */
  predicate Reaches(f: Node, m: Message)
    requires m.body.AppendEntries?
  {
    m.body.prevLogIndex >= f.log.snapIndex || m.body.prevLogIndex + |m.body.entries| > f.log.snapIndex
  }

  predicate InSequence(es: seq<Entry>, prev: Index) { forall j :: 0 <= j < |es| ==> es[j].index == prev + 1 + j }

  lemma AcceptedCommits(n: Node, from: NodeId, prev: Index, prevTerm: Term, es: seq<Entry>, lc: Index, ctx: nat, rnd: nat) returns (g: Node)
    requires n.role == Follower && n.log.TermOf(prev) == Some(prevTerm) && InSequence(es, prev) && n.log.snapIndex <= n.commit
    ensures g == AppendAt(n, from, prev, prevTerm, es, lc, ctx, rnd) && Emits(n.out.committed, g, n.commit, Max(n.commit, Min(lc, prev + |es|)))
  {
    MergedLong(n.log, prev, es);
    var a, target := Absorb(n, es), Min(lc, prev + |es|);
    g := AppendAt(n, from, prev, prevTerm, es, lc, ctx, rnd);
    if target > n.commit { var c := FollowerAdvances(a, target, rnd); }
  }

  lemma RefusedStays(n: Node, from: NodeId, prev: Index, prevTerm: Term, es: seq<Entry>, lc: Index, ctx: nat, rnd: nat)
    requires n.log.TermOf(prev) != Some(prevTerm)
    ensures Emits(n.out.committed, AppendAt(n, from, prev, prevTerm, es, lc, ctx, rnd), n.commit, n.commit)
  {}

  predicate Taken(log: RaftLog, prev: Index, prevTerm: Term, es: seq<Entry>) {
    if prev >= log.snapIndex then log.TermOf(prev) == Some(prevTerm) else prev + |es| > log.snapIndex
  }

  lemma AppendHandled(c: Node, from: NodeId, prev: Index, prevTerm: Term, es: seq<Entry>, lc: Index, ctx: nat, rnd: nat)
    requires InSequence(es, prev) && c.log.snapIndex <= c.commit
    ensures Emits(c.out.committed, HandleAppend(c, from, prev, prevTerm, es, lc, ctx, rnd), c.commit,
                  if Taken(c.log, prev, prevTerm, es) then Max(c.commit, Min(lc, prev + |es|)) else c.commit)
  {
    var h, snap := Heard(c, from), c.log.snapIndex;
    if prev >= snap {
      if c.log.TermOf(prev) == Some(prevTerm) {
        var g := AcceptedCommits(h, from, prev, prevTerm, es, lc, ctx, rnd);
      } else {
        RefusedStays(h, from, prev, prevTerm, es, lc, ctx, rnd);
      }
    } else if snap - prev < |es| {
      SkippedCommits(c, from, prev, prevTerm, es, lc, ctx, rnd);
    }
  }

  lemma LaterInSequence(es: seq<Entry>, prev: Index, k: nat)
    requires InSequence(es, prev) && k <= |es|
    ensures InSequence(es[k..], prev + k)
  {
    forall j | 0 <= j < |es[k..]| ensures es[k..][j].index == prev + k + 1 + j { assert es[k..][j] == es[k + j]; }
  }

  lemma SkippedCommits(c: Node, from: NodeId, prev: Index, prevTerm: Term, es: seq<Entry>, lc: Index, ctx: nat, rnd: nat)
    requires InSequence(es, prev) && c.log.snapIndex <= c.commit && 0 < c.log.snapIndex - prev < |es|
    ensures Emits(c.out.committed, HandleAppend(c, from, prev, prevTerm, es, lc, ctx, rnd), c.commit, Max(c.commit, Min(lc, prev + |es|)))
  {
    var snap := c.log.snapIndex;
    var rest := es[snap - prev..];
    LaterInSequence(es, prev, snap - prev);
    SkippedIs(c, from, prev, prevTerm, es, lc, ctx, rnd, rest);
    var g := AcceptedCommits(Heard(c, from), from, snap, c.log.snapTerm, rest, lc, ctx, rnd);
    assert snap + |rest| == prev + |es|;
  }

  lemma SkippedIs(c: Node, from: NodeId, prev: Index, prevTerm: Term, es: seq<Entry>, lc: Index, ctx: nat, rnd: nat, rest: seq<Entry>)
    requires 0 < c.log.snapIndex - prev < |es| && rest == es[c.log.snapIndex - prev..]
    ensures HandleAppend(c, from, prev, prevTerm, es, lc, ctx, rnd) ==
            AppendAt(Heard(c, from), from, c.log.snapIndex, c.log.snapTerm, rest, lc, ctx, rnd)
  {}

  /** The follower's commit rule: an accepted append that reaches above the snapshot moves the commit to the leader's,
      as far as the append proves the logs equal, and never back; each newly committed entry is emitted once, in
      order.  Any other append leaves the commit alone. */
  lemma AppendCommits(f: Node, m: Message, rnd: nat) returns (g: Node)
    requires m.body.AppendEntries? && f.hs.term <= m.term && InSequence(m.body.entries, m.body.prevLogIndex)
    requires f.log.snapIndex <= f.commit
    ensures g == RaftCore.Step(f, m, rnd)
    ensures Accepts(f, m) && Reaches(f, m) ==>
            Emits(f.out.committed, g, f.commit, Max(f.commit, Min(m.body.leaderCommit, m.body.prevLogIndex + |m.body.entries|)))
    ensures !(Accepts(f, m) && Reaches(f, m)) ==> Emits(f.out.committed, g, f.commit, f.commit)
  {
    var c := AppendStepAny(f, m, rnd);
    g := RaftCore.Step(f, m, rnd);
    AppendHandled(c, m.from, m.body.prevLogIndex, m.body.prevLogTerm, m.body.entries, m.body.leaderCommit, m.body.readCtx, rnd);
  }

  lemma AppendStepAny(f: Node, m: Message, rnd: nat) returns (c: Node)
    requires m.body.AppendEntries? && f.hs.term <= m.term
    ensures c == CatchUp(f, m, rnd) && c.log == f.log && c.commit == f.commit && c.out.committed == f.out.committed
    ensures RaftCore.Step(f, m, rnd) ==
            HandleAppend(c, m.from, m.body.prevLogIndex, m.body.prevLogTerm, m.body.entries, m.body.leaderCommit, m.body.readCtx, rnd)
  {
    c := CatchUp(f, m, rnd);
  }

  /** The answer: what was accepted is acknowledged up to its end, or up to the snapshot if it ends below; what was
      refused gets the end of the log, or the first index of the run of conflicting terms. */
  lemma AppendAnswers(f: Node, m: Message, rnd: nat) returns (g: Node, hint: Index)
    requires f.out == NO_OUTPUT && m.body.AppendEntries? && f.hs.term <= m.term
    ensures g == RaftCore.Step(f, m, rnd) && g.role == Follower && g.leaderId == Some(m.from) && g.hs.term == m.term && g.electionElapsed == 0
    ensures Accepts(f, m) ==>
            Answers(f, g, m.from, m.term, AppendEntriesResp(true, Max(f.log.snapIndex, m.body.prevLogIndex + |m.body.entries|), 0, m.body.readCtx))
    ensures !Accepts(f, m) ==> g.log == f.log && Answers(f, g, m.from, m.term, AppendEntriesResp(false, 0, hint, m.body.readCtx))
    ensures !Accepts(f, m) && m.body.prevLogIndex > f.log.LastIndex() ==> hint == f.log.LastIndex() + 1
    ensures !Accepts(f, m) && f.log.snapIndex < m.body.prevLogIndex <= f.log.LastIndex() ==>
            RunStarts(f.log, hint, m.body.prevLogIndex)
  {
    AppendStepFields(f, m, rnd);
    g, hint := RaftCore.Step(f, m, rnd), Hint(f, m.body.prevLogIndex);
    if Accepts(f, m) {
      AcceptAnswered(f, m, rnd);
    } else {
      FollowerRefuses(f, m, rnd);
      RefusalHint(f.log, m.body.prevLogIndex, hint);
    }
  }

  lemma AcceptAnswered(f: Node, m: Message, rnd: nat)
    requires f.out == NO_OUTPUT && m.body.AppendEntries? && f.hs.term <= m.term && Accepts(f, m)
    ensures Answers(f, RaftCore.Step(f, m, rnd), m.from, m.term,
                    AppendEntriesResp(true, Max(f.log.snapIndex, m.body.prevLogIndex + |m.body.entries|), 0, m.body.readCtx))
  {
    FollowerTakes(f, m, rnd);
    TookAnswers(f, m, RaftCore.Step(f, m, rnd));
  }

  lemma TookAnswers(f: Node, m: Message, g: Node)
    requires f.out == NO_OUTPUT && m.body.AppendEntries?
    requires Took(f.log, f.cfg.id, m.term, m.from, m.body.prevLogIndex, m.body.entries, m.body.readCtx, g)
    ensures Answers(f, g, m.from, m.term,
                    AppendEntriesResp(true, Max(f.log.snapIndex, m.body.prevLogIndex + |m.body.entries|), 0, m.body.readCtx))
  {}

  lemma RefusalHint(log: RaftLog, p: Index, hint: Index)
    requires hint == match log.TermOf(p) case None => log.LastIndex() + 1 case Some(t) => ConflictHint(log, p, t)
    ensures p > log.LastIndex() ==> hint == log.LastIndex() + 1
    ensures log.snapIndex < p <= log.LastIndex() ==> RunStarts(log, hint, p)
  {
    if p <= log.LastIndex() && p > log.snapIndex { HintRun(log, p, log.TermOf(p).value); }
  }

  /** `h` is where the entries of one term that end at `p` start. */
  ghost predicate RunStarts(log: RaftLog, h: Index, p: Index) {
    && log.snapIndex < h <= p && (forall k :: h <= k <= p ==> log.TermOf(k) == log.TermOf(p))
    && (h == log.FirstIndex() || log.TermOf(h - 1) != log.TermOf(p))
  }

  lemma {:induction false} HintRun(log: RaftLog, p: Index, t: Term)
    requires log.snapIndex < p <= log.LastIndex() && log.TermOf(p) == Some(t)
    ensures RunStarts(log, ConflictHint(log, p, t), p)
    decreases p
  {
    if p > log.FirstIndex() && log.TermOf(p - 1) == Some(t) { HintRun(log, p - 1, t); }
  }

  lemma AppendStepFields(f: Node, m: Message, rnd: nat)
    requires f.out == NO_OUTPUT && m.body.AppendEntries? && f.hs.term <= m.term
    ensures var g := RaftCore.Step(f, m, rnd);
            g.role == Follower && g.leaderId == Some(m.from) && g.hs.term == m.term && g.electionElapsed == 0
  {
    var c := AppendStepAny(f, m, rnd);
    HandledFields(c, m.from, m.body.prevLogIndex, m.body.prevLogTerm, m.body.entries, m.body.leaderCommit, m.body.readCtx, rnd);
  }

  lemma HandledFields(c: Node, from: NodeId, prev: Index, prevTerm: Term, es: seq<Entry>, lc: Index, ctx: nat, rnd: nat)
    ensures var g := HandleAppend(c, from, prev, prevTerm, es, lc, ctx, rnd);
            g.role == Follower && g.leaderId == Some(from) && g.hs == c.hs && g.electionElapsed == 0
  {}

  // ------------------------------------------------------------- elections

  /** A pre-vote changes nothing but the messages.  It is granted, in the term asked for, exactly to a newer term with a
      log as good as the node's own when no leader has been heard of for the shortest election timeout. */
  lemma PreVoteRule(n: Node, m: Message, rnd: nat)
    requires m.body.PreVote?
    ensures var granted := && n.hs.term < m.term && AsGood(n, m.body.lastLogIndex, m.body.lastLogTerm)
                           && (n.leaderId == None || n.electionElapsed >= n.cfg.electionTickMin);
            OnlySends(n, RaftCore.Step(n, m, rnd), m.from, if granted then m.term else n.hs.term, PreVoteResp(granted))
  {}

  /** The vote the node has already given in the term of the message. */
  function VoteIn(n: Node, t: Term): Option<NodeId> { if n.hs.term == t then n.hs.votedFor else None }

  /** The answer to a vote request in term `t`, given the vote `before` of that term. */
  ghost predicate Voted(n: Node, g: Node, before: Option<NodeId>, t: Term, from: NodeId, lastIndex: Index, lastTerm: Term, rnd: nat) {
    var granted := (before == None || before == Some(from)) && AsGood(n, lastIndex, lastTerm);
    var state :=
      && g.hs == HardState(t, if granted then Some(from) else before)
      && (if g.hs == n.hs then g.out.hardState == n.out.hardState else g.out.hardState == Some(g.hs))
      && g.log == n.log && g.commit == n.commit && (granted ==> g.electionElapsed == 0 && g.timeout == rnd);
    state && Answers(n, g, from, t, RequestVoteResp(granted))
  }

  /** A vote request of the node's term or a later one: the node moves to that term, gives its vote exactly if it has
      given none other there and the candidate's log is as good as its own, and persists what changed. */
  lemma VoteRule(n: Node, m: Message, rnd: nat)
    requires m.body.RequestVote? && n.hs.term <= m.term
    ensures var g := RaftCore.Step(n, m, rnd);
            && Voted(n, g, VoteIn(n, m.term), m.term, m.from, m.body.lastLogIndex, m.body.lastLogTerm, rnd)
            && g.role == (if n.hs.term < m.term then Follower else n.role)
  {
    if n.hs.term < m.term { LaterVote(n, m, rnd); }
  }

  lemma LaterVote(n: Node, m: Message, rnd: nat)
    requires m.body.RequestVote? && n.hs.term < m.term
    ensures var g := RaftCore.Step(n, m, rnd);
            Voted(n, g, None, m.term, m.from, m.body.lastLogIndex, m.body.lastLogTerm, rnd) && g.role == Follower
  {
    var c := CatchUp(n, m, rnd);
    assert c.hs == HardState(m.term, None) && c.out.hardState == Some(c.hs) && c.log == n.log && c.commit == n.commit && c.out.messages == n.out.messages;
    assert RaftCore.Step(n, m, rnd) == HandleRequestVote(c, m.from, m.body.lastLogIndex, m.body.lastLogTerm, rnd);
  }

  /** A vote request of an older term is refused in the node's own. */
  lemma OldVoteRule(n: Node, m: Message, rnd: nat)
    requires m.body.RequestVote? && m.term < n.hs.term
    ensures OnlySends(n, RaftCore.Step(n, m, rnd), m.from, n.hs.term, RequestVoteResp(false))
  {}

  /** Replies and snapshots of an older term are ignored. */
  lemma OldIgnored(n: Node, m: Message, rnd: nat)
    requires m.body.RequestVoteResp? || m.body.AppendEntriesResp? || m.body.InstallSnapshot? || m.body.InstallSnapshotResp?
    requires m.term < n.hs.term
    ensures RaftCore.Step(n, m, rnd) == n
  {}

  /** The voters that have said yes. */
  ghost function Yes(n: Node, votes: map<NodeId, bool>): set<NodeId> { set p | p in votes && votes[p] && p in Voters(n) }

  ghost predicate Elects(n: Node, votes: map<NodeId, bool>) { 2 * |Yes(n, votes)| > |Voters(n)| }

  lemma QuorumIs(n: Node, m: Node)
    requires m == n.(votes := m.votes)
    ensures HasQuorum(m) <==> Elects(n, m.votes)
  {
    assert Granted(m) == Yes(n, m.votes);
  }

  lemma {:induction false} SendEachAsks(n: Node, peers: seq<NodeId>, term: Term, body: Body)
    ensures var g := SendEach(n, peers, term, body);
            && g == n.(out := n.out.(messages := g.out.messages)) && (forall x :: x in n.out.messages ==> x in g.out.messages)
            && forall v :: v in peers && v != n.cfg.id ==> Message(n.cfg.id, v, term, body) in g.out.messages
    decreases |peers|
  {
    if peers != [] {
      var n1 := if peers[0] == n.cfg.id then n else Send(n, peers[0], term, body);
      SendEachAsks(n1, peers[1..], term, body);
      assert peers == [peers[0]] + peers[1..];
    }
  }

  /** Every other voter is asked. */
  ghost predicate Asks(n: Node, g: Node, term: Term, body: Body) {
    forall v :: v in Voters(n) && v != n.cfg.id ==> Message(n.cfg.id, v, term, body) in g.out.messages
  }

  /** Standing for election with more than one voter: the next term, a vote for itself, persisted, and a request to
      every other voter. */
  ghost predicate Stands(n: Node, g: Node) {
    && g.hs == HardState(n.hs.term + 1, Some(n.cfg.id)) && g.out.hardState == Some(g.hs) && g.role == Candidate && g.leaderId == None
    && g.votes == map[n.cfg.id := true] && g.log == n.log && g.commit == n.commit
    && Asks(n, g, n.hs.term + 1, RequestVote(n.log.LastIndex(), n.log.LastTerm()))
  }

  lemma CampaignStands(n: Node, rnd: nat)
    requires !Elects(n, map[n.cfg.id := true])
    ensures Stands(n, Campaign(n, rnd))
  {
    var m := AsCandidate(n);
    assert Voters(m) == Voters(n) && Granted(m) == Yes(n, m.votes);
    SendEachAsks(m, Voters(m), m.hs.term, RequestVote(m.log.LastIndex(), m.log.LastTerm()));
  }

  /** Asking first: nothing but role and count changes, and every other voter is asked about the next term. */
  ghost predicate Probed(n: Node, g: Node) {
    && g == n.(role := PreCandidate, votes := map[n.cfg.id := true], out := n.out.(messages := g.out.messages))
    && Asks(n, g, n.hs.term + 1, PreVote(n.log.LastIndex(), n.log.LastTerm()))
  }

  lemma CampaignPreProbes(n: Node, rnd: nat)
    requires !Elects(n, map[n.cfg.id := true])
    ensures Probed(n, CampaignPre(n, rnd))
  {
    var m := AsPreCandidate(n);
    assert Voters(m) == Voters(n) && Granted(m) == Yes(n, m.votes);
    SendEachAsks(m, Voters(m), m.hs.term + 1, PreVote(m.log.LastIndex(), m.log.LastTerm()));
  }

  /** A refused pre-vote matters only as news of a later term. */
  lemma PreVoteRefusedRule(n: Node, m: Message, rnd: nat)
    requires m.body == PreVoteResp(false)
    ensures var g := RaftCore.Step(n, m, rnd);
            if m.term <= n.hs.term then g == n else Yields(n, g, m.term, None)
  {}

  /** Giving way to a later term: no vote in it yet, follower, nothing tracked, nothing pending. */
  ghost predicate Yields(n: Node, g: Node, t: Term, leader: Option<NodeId>) {
    && g.hs == HardState(t, None) && g.out.hardState == Some(g.hs) && g.role == Follower && g.leaderId == leader
    && g.prs == map[] && g.pendingReads == [] && g.electionElapsed == 0
    && g.log == n.log && g.commit == n.commit && g.snapshot == n.snapshot && g.out.messages == n.out.messages && g.out.committed == n.out.committed
  }

  /** A reply of a later term makes the node give way and is not looked at further. */
  lemma LaterReplyRule(n: Node, m: Message, rnd: nat)
    requires m.body.RequestVoteResp? || m.body.AppendEntriesResp? || m.body.InstallSnapshotResp?
    requires n.hs.term < m.term
    ensures Yields(n, RaftCore.Step(n, m, rnd), m.term, None)
  {}

  // ------------------------------------------------------------- sending

  /** A progress that may be sent to: no snapshot transfer waits for its retry, and the leader has what comes next. */
  predicate CanSend(n: Node, pr: Progress) {
    && !(pr.pendingSnapshot && Max(n.ticks - pr.snapshotSentTick, 0) < n.cfg.electionTickMin)
    && (if pr.next <= n.log.snapIndex then n.snapshot.Some? else n.log.TermOf(pr.next - 1).Some?)
  }

  /** The batch: nothing while the pipeline is full, else as many entries from `next` on as there are and may be sent. */
  ghost predicate BatchFor(n: Node, pr: Progress, es: seq<Entry>) {
    if pr.inflight >= n.cfg.maxInflight then es == []
    else && |es| == Min(n.cfg.maxBatch, Max(n.log.LastIndex() + 1 - pr.next, 0))
         && forall j :: 0 <= j < |es| ==> n.log.Get(pr.next + j) == Some(es[j])
  }

  /** What a peer with this progress must get: the snapshot when it is behind the log, else the next batch with the
      entry before it, the commit and the read round. */
  ghost predicate NextFor(n: Node, pr: Progress, to: NodeId, x: Message) {
    && x.from == n.cfg.id && x.to == to && x.term == n.hs.term
    && if pr.next <= n.log.snapIndex then n.snapshot.Some? && x.body == InstallSnapshot(n.snapshot.value)
       else && x.body.AppendEntries? && x.body.prevLogIndex == pr.next - 1 && n.log.TermOf(pr.next - 1) == Some(x.body.prevLogTerm)
            && x.body.leaderCommit == n.commit && x.body.readCtx == n.readCtx && BatchFor(n, pr, x.body.entries)
  }

  /** The progress after that message. */
  ghost predicate ProgressAfter(n: Node, pr: Progress, x: Message, after: Progress) {
    if pr.next <= n.log.snapIndex then after == pr.(pendingSnapshot := true, snapshotSentTick := n.ticks)
    else x.body.AppendEntries? && var k := |x.body.entries|;
      && after == pr.(pendingSnapshot := false, next := pr.next + k, inflight := after.inflight)
      && (k > 0 ==> after.inflight == pr.inflight + 1) && (k == 0 ==> after.inflight == pr.inflight || after.inflight == Max(pr.inflight - 1, 0))
  }

  /** One message to one peer, or none. */
  lemma SendRule(n: Node, peer: NodeId) returns (g: Node, x: Message)
    requires peer in n.prs
    ensures g == SendAppend(n, peer) && peer in g.prs
    ensures g == n.(prs := n.prs[peer := g.prs[peer]], out := n.out.(messages := g.out.messages))
    ensures CanSend(n, n.prs[peer]) ==> g.out.messages == n.out.messages + [x] && NextFor(n, n.prs[peer], peer, x) && ProgressAfter(n, n.prs[peer], x, g.prs[peer])
    ensures !CanSend(n, n.prs[peer]) ==> g.out.messages == n.out.messages
  {
    g := SendAppend(n, peer);
    assert n.prs[peer := n.prs[peer]] == n.prs;
    x := if g.out.messages == n.out.messages then Message(0, 0, 0, PreVoteResp(true)) else g.out.messages[|g.out.messages| - 1];
    var pr := n.prs[peer].(pendingSnapshot := false);
    if pr.next > n.log.snapIndex { BatchIs(n, pr); }
  }

  lemma BatchIs(n: Node, pr: Progress)
    requires pr.next > n.log.snapIndex
    ensures BatchFor(n, pr, Batch(n, pr))
  {}

  /** What the node may send depends on these alone. */
  ghost predicate SameSender(n: Node, m: Node) {
    m == n.(prs := m.prs, out := n.out.(messages := m.out.messages)) && forall x :: x in n.out.messages ==> x in m.out.messages
  }

  ghost predicate Served(n: Node, pr: Progress, to: NodeId, g: Node) {
    CanSend(n, pr) ==> exists x :: x in g.out.messages && NextFor(n, pr, to, x)
  }

  lemma {:induction false} SendAppendsRule(n: Node, peers: seq<NodeId>)
    ensures SameSender(n, SendAppends(n, peers)) && SendAppends(n, peers).prs.Keys == n.prs.Keys
    ensures forall v :: v in peers && v in n.prs ==> Served(n, n.prs[v], v, SendAppends(n, peers))
    ensures forall v :: v in n.prs && v !in peers ==> SendAppends(n, peers).prs[v] == n.prs[v]
    decreases |peers|
  {
    if peers != [] {
      var p := peers[0];
      var g := SendAppends(n, peers);
      assert peers == [p] + peers[1..];
      var n1 := SendAppend(n, p);
      if p in n.prs {
        var n2, x := SendRule(n, p);
        assert CanSend(n, n.prs[p]) ==> x in n1.out.messages;
      }
      SendAppendsRule(n1, peers[1..]);
      forall v | v in peers && v in n.prs ensures Served(n, n.prs[v], v, g) {
        if v != p { SameServed(n, n1, n.prs[v], v, g); }
      }
    }
  }

  lemma SameServed(n: Node, m: Node, pr: Progress, to: NodeId, g: Node)
    requires SameSender(n, m) && Served(m, pr, to, g)
    ensures Served(n, pr, to, g)
  {
    if CanSend(n, pr) {
      var x :| x in g.out.messages && NextFor(m, pr, to, x);
      assert NextFor(n, pr, to, x);
    }
  }

  lemma {:induction false} AscendingHas(s: set<NodeId>)
    ensures forall v :: v in Ascending(s) <==> v in s
    decreases |s|
  {
    if s != {} {
      AscendingHas(s - {Least(s)});
    }
  }

  /** The progress a leader starts a new peer with. */
  function StartAt(next: Index): Progress { Progress(next, 0, 0, false, 0, 0) }

  function TrackOf(n: Node, v: NodeId): Progress { if v in n.prs then n.prs[v] else StartAt(n.log.LastIndex() + 1) }

  /** Every other voter is served. */
  ghost predicate ServesAll(n: Node, g: Node) { forall v :: v in Voters(n) && v != n.cfg.id ==> Served(n, TrackOf(n, v), v, g) }

  lemma BroadcastRule(n: Node)
    requires n.role == Leader
    ensures SameSender(n, Broadcast(n)) && ServesAll(n, Broadcast(n))
  {
    var m := SyncProgress(n);
    AscendingHas(m.prs.Keys);
    SendAppendsRule(m, Ascending(m.prs.Keys));
    forall v | v in Voters(n) && v != n.cfg.id ensures Served(n, TrackOf(n, v), v, Broadcast(n)) {
      assert m.prs[v] == TrackOf(n, v);
      SameServed(n, m, m.prs[v], v, Broadcast(n));
    }
  }

  // ------------------------------------------------------------- the leader's commit

  /** How far the log of a voter is known to reach. */
  function Reach(n: Node, v: NodeId): Index {
    if v == n.cfg.id then n.log.LastIndex() else if v in n.prs then n.prs[v].matched else 0
  }

  /** How many of the voters `vs` hold index `c`. */
  function Holding(n: Node, vs: seq<NodeId>, c: Index): nat {
    if vs == [] then 0 else (if Reach(n, vs[0]) >= c then 1 else 0) + Holding(n, vs[1..], c)
  }

  ghost predicate HeldByMost(n: Node, c: Index) { 2 * Holding(n, Voters(n), c) > |Voters(n)| }

  /** `c` is the largest index a majority holds. */
  ghost predicate LargestHeld(n: Node, c: Index) { HeldByMost(n, c) && !HeldByMost(n, c + 1) }

  lemma {:induction false} HoldingIs(n: Node, vs: seq<NodeId>, c: Index)
    ensures Holding(n, vs, c) == CountAtLeast(Matches(n, vs), c)
    decreases |vs|
  {
    if vs != [] {
      HoldingIs(n, vs[1..], c);
      assert Matches(n, vs)[1..] == Matches(n, vs[1..]);
    }
  }

  /** The commit of `g` is what log and progress of `n` allow: the largest index a majority holds, if it is new and of
      the leader's own term; the entries committed are emitted in order. */
  ghost predicate CommitsBy(n: Node, g: Node) {
    forall c: Index :: LargestHeld(n, c) ==>
      Emits(n.out.committed, g, n.commit, if c > n.commit && n.log.TermOf(c) == Some(n.hs.term) then c else n.commit)
  }

  /** Among the entries just committed is the node's own removal. */
  ghost predicate Removed(n: Node, g: Node) {
    exists k: Index :: n.commit < k <= g.commit && g.log.Get(k).Some? && g.log.Get(k).value.payload == Conf(RemoveNode(n.cfg.id))
  }

  lemma LeaderAdvances(n: Node, c: Index, rnd: nat)
    requires n.role == Leader && n.log.snapIndex <= n.commit <= c <= n.log.LastIndex()
    ensures var g := AdvanceCommit(n, c, rnd);
            && Emits(n.out.committed, g, n.commit, c) && g.log == n.log && g.hs == n.hs && g.out.append == n.out.append && g.out.messages == n.out.messages
            && (g.role == Leader ==> g == n.(commit := c, out := n.out.(committed := g.out.committed)))
            && (g.role == Leader <==> !Removed(n, g))
  {
    BetweenAt(n.log, n.commit, c);
    var es, g := Between(n.log, n.commit, c), AdvanceCommit(n, c, rnd);
    if RemovesSelf(n, es) {
      var e :| e in es && e.payload == Conf(RemoveNode(n.cfg.id));
      var i :| 0 <= i < |es| && es[i] == e;
      assert g.log.Get(n.commit + 1 + i) == Some(e);
    }
  }

  lemma QuorumCommits(n: Node, rnd: nat)
    requires n.role == Leader && n.log.snapIndex <= n.commit
    ensures CommitsBy(n, MaybeAdvance(n, rnd)) && (MaybeAdvance(n, rnd).role == Leader <==> !Removed(n, MaybeAdvance(n, rnd)))
  {
    var g := MaybeAdvance(n, rnd);
    forall c: Index | LargestHeld(n, c) ensures
      Emits(n.out.committed, g, n.commit, if c > n.commit && n.log.TermOf(c) == Some(n.hs.term) then c else n.commit)
    {
      HeldOnce(n, rnd, c);
    }
    var sorted := SortDesc(Matches(n, Voters(n)));
    if |sorted| >= QuorumSize(n) {
      var c := sorted[QuorumSize(n) - 1];
      if c > n.commit && n.log.TermOf(c) == Some(n.hs.term) { LeaderAdvances(n, c, rnd); }
    }
  }

  lemma HeldOnce(n: Node, rnd: nat, c: Index)
    requires n.role == Leader && n.log.snapIndex <= n.commit && LargestHeld(n, c)
    ensures Emits(n.out.committed, MaybeAdvance(n, rnd), n.commit, if c > n.commit && n.log.TermOf(c) == Some(n.hs.term) then c else n.commit)
  {
    HoldingIs(n, Voters(n), c);
    HoldingIs(n, Voters(n), c + 1);
    CommitRule(n, rnd, c);
    if c > n.commit && n.log.TermOf(c) == Some(n.hs.term) { LeaderAdvances(n, c, rnd); }
  }

  /** What a commit leaves alone. */
  ghost predicate CommitOnly(n: Node, g: Node) {
    && g.log == n.log && g.hs == n.hs && g.cfg == n.cfg && g.out.append == n.out.append && g.out.messages == n.out.messages
    && (g.role == Leader ==> g == n.(commit := g.commit, out := n.out.(committed := g.out.committed)))
    && (g.role != Leader ==> g.prs == map[] && g.role == Follower)
  }

  lemma CommitShape(n: Node, rnd: nat)
    requires n.role == Leader
    ensures CommitOnly(n, MaybeAdvance(n, rnd))
  {}

  // ------------------------------------------------------------- requests

  /** The log with one entry of the leader's term behind it, also handed to the host. */
  ghost predicate Appended(n: Node, g: Node, payload: Payload) {
    var i := n.log.LastIndex() + 1;
    var e := Entry(n.hs.term, i, payload);
    var last := g.log.Get(i) == Some(e) && g.log.LastIndex() == i && g.out.append == n.out.append + [e];
    var base := g.log.snapIndex == n.log.snapIndex && g.log.snapTerm == n.log.snapTerm;
    last && base && forall k: Index :: k < i ==> g.log.Get(k) == n.log.Get(k)
  }

  /** A local append, whatever it commits. */
  lemma AppendLocalShape(n: Node, payload: Payload, rnd: nat)
    requires n.role == Leader
    ensures var g := AppendLocal(n, payload, rnd);
            && Appended(n, g, payload) && g.hs == n.hs
            && (g.role == Leader ==> ServesAll(g.(prs := n.prs), g) && g.readCtx == n.readCtx && g.pendingReads == n.pendingReads && g.leaderId == n.leaderId)
  {
    var p := Pushed(n, payload);
    var q := MaybeAdvance(p, rnd);
    PushedAppends(n, payload);
    CommitShape(p, rnd);
    if q.role == Leader { BroadcastRule(q); } else { Quiet(q); }
    var g := Broadcast(q);
    AppendedKept(n, p, g, payload);
    if q.role == Leader { LocalServes(n, q, g); }
  }

  lemma PushedAppends(n: Node, payload: Payload)
    ensures Appended(n, Pushed(n, payload), payload)
  {}

  lemma AppendedKept(n: Node, p: Node, g: Node, payload: Payload)
    requires Appended(n, p, payload) && g.log == p.log && g.out.append == p.out.append
    ensures Appended(n, g, payload)
  {}

  lemma AppendLocalCommits(n: Node, payload: Payload, rnd: nat)
    requires n.role == Leader && n.log.snapIndex <= n.commit
    ensures var g := AppendLocal(n, payload, rnd);
            CommitsBy(n.(log := g.log), g) && (g.role == Leader <==> !Removed(n, g))
  {
    var p := Pushed(n, payload);
    var q := MaybeAdvance(p, rnd);
    QuorumCommits(p, rnd);
    CommitShape(p, rnd);
    if q.role == Leader { BroadcastRule(q); } else { Quiet(q); }
    LocalCommits(n, p, q, Broadcast(q));
  }

  lemma LocalServes(n: Node, q: Node, g: Node)
    requires SameSender(q, g) && ServesAll(q, g) && q.prs == n.prs && q.cfg == n.cfg
    ensures ServesAll(g.(prs := n.prs), g)
  {
    var h := g.(prs := n.prs);
    forall v | v in Voters(h) && v != h.cfg.id ensures Served(h, TrackOf(h, v), v, g) {
      assert Served(q, TrackOf(q, v), v, g);
      if CanSend(h, TrackOf(h, v)) {
        var x :| x in g.out.messages && NextFor(q, TrackOf(q, v), v, x);
        assert NextFor(h, TrackOf(h, v), v, x);
      }
    }
  }

  lemma LocalCommits(n: Node, p: Node, q: Node, g: Node)
    requires CommitsBy(p, q) && p == n.(log := p.log, out := p.out) && p.out.committed == n.out.committed
    requires g.commit == q.commit && g.out.committed == q.out.committed && g.log == q.log == p.log
    ensures CommitsBy(n.(log := g.log), g)
  {
    var n1 := n.(log := g.log);
    forall c: Index | LargestHeld(n1, c) ensures
      Emits(n1.out.committed, g, n1.commit, if c > n1.commit && n1.log.TermOf(c) == Some(n1.hs.term) then c else n1.commit)
    {
      SameHolding(n1, p, Voters(p), c);
      SameHolding(n1, p, Voters(p), c + 1);
      assert LargestHeld(p, c);
    }
  }

  lemma {:induction false} SameHolding(n: Node, p: Node, vs: seq<NodeId>, c: Index)
    requires n.cfg == p.cfg && n.log == p.log && n.prs == p.prs
    ensures Holding(n, vs, c) == Holding(p, vs, c)
    decreases |vs|
  {
    if vs != [] { SameHolding(n, p, vs[1..], c); }
  }

  /** A node that does not lead and tracks nobody has nothing to broadcast. */
  lemma Quiet(q: Node)
    requires q.role != Leader && q.prs == map[]
    ensures Broadcast(q) == q
  {
    assert q.prs.Keys == {};
  }

  /** A proposal: the leader appends the command at the end of its log in its own term, answers with that index, counts
      it towards a commit and sends it on; any other node refuses and names the leader it knows. */
  lemma ProposeRule(n: Node, cmd: Kvsm.Command, rnd: nat)
    ensures var (g, r) := Propose(n, cmd, rnd);
            if n.role != Leader then g == n && r == Refused(NotLeader(n.leaderId))
            else && r == Ok(n.log.LastIndex() + 1) && Appended(n, g, Normal(cmd)) && g.hs == n.hs
                 && (n.log.snapIndex <= n.commit ==> CommitsBy(n.(log := g.log), g))
                 && (g.role == Leader ==> ServesAll(g.(prs := n.prs), g))
  {
    if n.role == Leader {
      AppendLocalShape(n, Normal(cmd), rnd);
      if n.log.snapIndex <= n.commit { AppendLocalCommits(n, Normal(cmd), rnd); }
    }
  }

  /** A read request: refused unless the node leads and has committed in its own term; else registered under the next
      round with the present commit, and released at once by a sole voter or announced to every other voter. */
  lemma ReadRule(n: Node, id: nat)
    ensures var (g, r) := ReadIndex(n, id);
            var p := PendingRead(n.readCtx + 1, id, n.commit);
            if n.role != Leader then g == n && r == Refused(NotLeader(n.leaderId))
            else if n.log.TermOf(n.commit) != Some(n.hs.term) then g == n && r == Refused(NotReady)
            else && r == Ok(()) && g.readCtx == n.readCtx + 1 && g.log == n.log && g.commit == n.commit && g.hs == n.hs
                 && (|Voters(n)| >= 2 ==> g.pendingReads == n.pendingReads + [p] && g.out.readStates == n.out.readStates && ServesAll(g.(prs := n.prs), g))
                 && (|Voters(n)| < 2 ==> p !in g.pendingReads && ReadState(id, n.commit) in g.out.readStates)
  {
    if n.role == Leader && n.log.TermOf(n.commit) == Some(n.hs.term) {
      var p := PendingRead(n.readCtx + 1, id, n.commit);
      var m := n.(readCtx := n.readCtx + 1, pendingReads := n.pendingReads + [p]);
      ReadIs(n, id, m);
      if QuorumSize(m) == 1 {
        WaitingExactly(m.pendingReads, m.readCtx, p);
        ReadyExactly(m.pendingReads, m.readCtx, p);
      } else {
        BroadcastRule(m);
        LocalServes(n, m, Broadcast(m));
      }
    }
  }

  lemma ReadIs(n: Node, id: nat, m: Node)
    requires n.role == Leader && n.log.TermOf(n.commit) == Some(n.hs.term)
    requires m == n.(readCtx := n.readCtx + 1, pendingReads := n.pendingReads + [PendingRead(n.readCtx + 1, id, n.commit)])
    ensures ReadIndex(n, id) == (if QuorumSize(m) == 1 then ReleaseReads(m, m.readCtx) else Broadcast(m), Ok(()))
  {}

  // ------------------------------------------------------------- leading

  function StartOthers(n: Node): map<NodeId, Progress> { map v | v in Voters(n) && v != n.cfg.id :: StartAt(n.log.LastIndex() + 1) }

  /** A new leader: the same term and vote, everyone else untracked so far, read rounds from the start, and a no-op of its
      term on its way to every other voter. */
  ghost predicate Leads(n: Node, g: Node) {
    && Appended(n, g, Noop) && g.hs == n.hs
    && (g.role == Leader ==> g.leaderId == Some(n.cfg.id) && g.readCtx == 0 && g.pendingReads == [] && ServesAll(g.(prs := StartOthers(n)), g))
  }

  lemma BecomesLeader(n: Node, rnd: nat)
    ensures Leads(n, BecomeLeader(n, rnd))
  {
    var l := AsLeader(n);
    assert l.prs == StartOthers(n);
    var a := AppendLocal(l, Noop, rnd);
    AppendLocalShape(l, Noop, rnd);
    AppendedFrom(n, l, a, Noop);
    LeadsOn(n, l, a, BecomeLeader(n, rnd), rnd);
  }

  lemma AppendedFrom(n: Node, l: Node, a: Node, payload: Payload)
    requires l.log == n.log && l.hs == n.hs && l.out.append == n.out.append && Appended(l, a, payload)
    ensures Appended(n, a, payload)
  {}

  lemma LeadsOn(n: Node, l: Node, a: Node, g: Node, rnd: nat)
    requires l == AsLeader(n) && l.prs == StartOthers(n) && a == AppendLocal(l, Noop, rnd) && g == Broadcast(a) && Appended(n, a, Noop) && a.hs == n.hs
    requires a.role == Leader ==> ServesAll(a.(prs := l.prs), a) && a.readCtx == 0 && a.pendingReads == [] && a.leaderId == Some(n.cfg.id)
    ensures Leads(n, g)
  {
    if a.role == Leader {
      BroadcastRule(a);
      AppendedKept(n, a, g, Noop);
      StillServed(l, a, g);
    } else {
      DownQuiet(l, a, rnd);
    }
  }

  lemma StillServed(l: Node, a: Node, g: Node)
    requires SameSender(a, g) && ServesAll(a.(prs := l.prs), a)
    ensures ServesAll(g.(prs := l.prs), g)
  {
    var h, h2 := a.(prs := l.prs), g.(prs := l.prs);
    forall v | v in Voters(h2) && v != h2.cfg.id ensures Served(h2, TrackOf(h2, v), v, g) {
      assert Served(h, TrackOf(h, v), v, a);
      if CanSend(h2, TrackOf(h2, v)) {
        var x :| x in a.out.messages && NextFor(h, TrackOf(h, v), v, x);
        assert NextFor(h2, TrackOf(h2, v), v, x);
      }
    }
  }

  lemma DownQuiet(l: Node, a: Node, rnd: nat)
    requires l.role == Leader && a == AppendLocal(l, Noop, rnd) && a.role != Leader
    ensures Broadcast(a) == a
  {
    var q := MaybeAdvance(Pushed(l, Noop), rnd);
    CommitShape(Pushed(l, Noop), rnd);
    if q.role == Leader { BroadcastRule(q); } else { Quiet(q); }
  }

  /** A vote is counted, and the candidate leads exactly when a majority of the voters has said yes. */
  lemma VoteRespRule(n: Node, m: Message, rnd: nat)
    requires m.body.RequestVoteResp? && m.term == n.hs.term
    ensures var g, votes := RaftCore.Step(n, m, rnd), n.votes[m.from := m.body.granted];
            if n.role != Candidate then g == n else if Elects(n, votes) then Leads(n, g) else g == n.(votes := votes)
  {
    if n.role == Candidate {
      var n2 := n.(votes := n.votes[m.from := m.body.granted]);
      QuorumIs(n, n2);
      CountedVote(n, m, rnd, n2);
      if HasQuorum(n2) {
        BecomesLeader(n2, rnd);
        LeadsFrom(n, n2, BecomeLeader(n2, rnd));
      }
    }
  }

  lemma CountedVote(n: Node, m: Message, rnd: nat, n2: Node)
    requires m.body.RequestVoteResp? && m.term == n.hs.term && n.role == Candidate && n2 == n.(votes := n.votes[m.from := m.body.granted])
    ensures RaftCore.Step(n, m, rnd) == if HasQuorum(n2) then BecomeLeader(n2, rnd) else n2
  {}

  /** Leading depends on these alone. */
  lemma LeadsFrom(n: Node, n2: Node, g: Node)
    requires n2.log == n.log && n2.hs == n.hs && n2.cfg == n.cfg && n2.votersBase == n.votersBase && n2.out.append == n.out.append && Leads(n2, g)
    ensures Leads(n, g)
  {
    AppendedFrom(n, n2, g, Noop);
    assert StartOthers(n2) == StartOthers(n);
  }

  /** Standing for election: a sole voter leads at once, anyone else asks. */
  ghost predicate Campaigned(n: Node, g: Node) {
    if Elects(n, map[n.cfg.id := true]) then Leads(n.(hs := HardState(n.hs.term + 1, Some(n.cfg.id))), g) else Stands(n, g)
  }

  lemma CampaignRule(n: Node, rnd: nat)
    ensures Campaigned(n, Campaign(n, rnd))
  {
    if Elects(n, map[n.cfg.id := true]) {
      var m, n1 := AsCandidate(n), n.(hs := HardState(n.hs.term + 1, Some(n.cfg.id)));
      assert Voters(m) == Voters(n) && Granted(m) == Yes(n, m.votes);
      BecomesLeader(m, rnd);
      CampaignIs(n, m, rnd);
      LeadsFrom(n1, m, BecomeLeader(m, rnd));
    } else {
      CampaignStands(n, rnd);
    }
  }

  lemma CampaignIs(n: Node, m: Node, rnd: nat)
    requires m == AsCandidate(n) && HasQuorum(m)
    ensures Campaign(n, rnd) == BecomeLeader(m, rnd)
  {}

  /** A granted pre-vote is counted, and the election starts exactly when a majority has granted it.  Anything but an
      answer for the next term of a node that asks is ignored. */
  lemma PreVoteRespRule(n: Node, m: Message, rnd: nat)
    requires m.body == PreVoteResp(true)
    ensures var g, votes := RaftCore.Step(n, m, rnd), n.votes[m.from := true];
            if n.role != PreCandidate || m.term != n.hs.term + 1 then g == n
            else if Elects(n, votes) then Campaigned(n.(votes := votes), g) else g == n.(votes := votes)
  {
    var n2 := n.(votes := n.votes[m.from := true]);
    QuorumIs(n, n2);
    if n.role == PreCandidate && m.term == n.hs.term + 1 && HasQuorum(n2) {
      CampaignRule(n2, rnd);
      CountedCampaigns(n, m, rnd, n2);
    }
  }

  lemma CountedCampaigns(n: Node, m: Message, rnd: nat, n2: Node)
    requires m.body == PreVoteResp(true) && n.role == PreCandidate && m.term == n.hs.term + 1
    requires n2 == n.(votes := n.votes[m.from := true]) && HasQuorum(n2)
    ensures RaftCore.Step(n, m, rnd) == Campaign(n2, rnd)
  {}

  // ------------------------------------------------------------- replies to a leader

  /** What a leader does once the progress of `from` has become `pr`: count commits, and send what comes next if told. */
  ghost predicate Follows(n: Node, from: NodeId, pr: Progress, g: Node, send: bool) {
    var n1 := n.(prs := n.prs[from := pr]);
    && g.log == n.log && g.hs == n.hs && (n.log.snapIndex <= n.commit ==> CommitsBy(n1, g))
    && (g.role == Leader ==>
          && g.prs.Keys == n.prs.Keys && (forall v :: v in n.prs && v != from ==> g.prs[v] == n.prs[v])
          && from in g.prs && g.prs[from].matched == pr.matched && g.prs[from].ackedReadCtx == pr.ackedReadCtx
          && (if send then Served(g, pr, from, g) else g.prs[from] == pr && g.out.messages == n.out.messages))
  }

  lemma SentTo(n: Node, q: Node, from: NodeId, pr: Progress, g: Node)
    requires q.role == Leader && from in q.prs && q.prs[from] == pr && g == SendAppend(q, from)
    ensures SameSender(q, g) && g.prs.Keys == q.prs.Keys && (forall v :: v in q.prs && v != from ==> g.prs[v] == q.prs[v])
    ensures g.prs[from].matched == pr.matched && g.prs[from].ackedReadCtx == pr.ackedReadCtx && Served(g, pr, from, g)
  {
    var g2, x := SendRule(q, from);
    if CanSend(g, pr) {
      assert x in g.out.messages && NextFor(q, pr, from, x);
      assert NextFor(g, pr, from, x);
    }
  }

  lemma CommitsKept(n: Node, q: Node, g: Node)
    requires CommitsBy(n, q) && g.commit == q.commit && g.out.committed == q.out.committed && g.log == q.log
    ensures CommitsBy(n, g)
  {
    forall c: Index | LargestHeld(n, c) ensures
      Emits(n.out.committed, g, n.commit, if c > n.commit && n.log.TermOf(c) == Some(n.hs.term) then c else n.commit) {
      assert Emits(n.out.committed, q, n.commit, if c > n.commit && n.log.TermOf(c) == Some(n.hs.term) then c else n.commit);
    }
  }

  /** The leader hears that a snapshot arrived: the transfer is over, the peer is known to reach its index, and the next
      message goes out. */
  lemma SnapshotRespRule(n: Node, m: Message, rnd: nat)
    requires m.body.InstallSnapshotResp? && m.term == n.hs.term
    ensures var g, li := RaftCore.Step(n, m, rnd), m.body.lastIndex;
            if n.role != Leader || m.from !in n.prs then g == n
            else var pr := n.prs[m.from];
                 Follows(n, m.from, pr.(pendingSnapshot := false, matched := Max(pr.matched, li), next := Max(pr.next, li + 1), inflight := 0), g, true)
  {
    if n.role == Leader && m.from in n.prs {
      var pr, li := n.prs[m.from], m.body.lastIndex;
      var pr2 := pr.(pendingSnapshot := false, matched := Max(pr.matched, li), next := Max(pr.next, li + 1), inflight := 0);
      var n1 := n.(prs := n.prs[m.from := pr2]);
      var q := MaybeAdvance(n1, rnd);
      CommitShape(n1, rnd);
      SnapshotRespIs(n, m, rnd, n1);
      if q.role == Leader { SentTo(n, q, m.from, pr2, SendAppend(q, m.from)); }
      if n.log.snapIndex <= n.commit {
        QuorumCommits(n1, rnd);
        CommitsKept(n1, q, SendAppend(q, m.from));
      }
    }
  }

  lemma SnapshotRespIs(n: Node, m: Message, rnd: nat, n1: Node)
    requires m.body.InstallSnapshotResp? && m.term == n.hs.term && n.role == Leader && m.from in n.prs
    requires var pr, li := n.prs[m.from], m.body.lastIndex;
             n1 == n.(prs := n.prs[m.from := pr.(pendingSnapshot := false, matched := Max(pr.matched, li), next := Max(pr.next, li + 1), inflight := 0)])
    ensures RaftCore.Step(n, m, rnd) == SendAppend(MaybeAdvance(n1, rnd), m.from)
  {
    ArrivalStep(n, m, rnd);
    ArrivalHandled(n, m.from, m.body.lastIndex, rnd, n1);
  }

  lemma ArrivalStep(n: Node, m: Message, rnd: nat)
    requires m.body.InstallSnapshotResp? && m.term == n.hs.term
    ensures RaftCore.Step(n, m, rnd) == HandleSnapshotResp(n, m.from, m.body.lastIndex, rnd)
  {}

  lemma ArrivalHandled(n: Node, from: NodeId, li: Index, rnd: nat, n1: Node)
    requires n.role == Leader && from in n.prs
    requires var pr := n.prs[from];
             n1 == n.(prs := n.prs[from := pr.(pendingSnapshot := false, matched := Max(pr.matched, li), next := Max(pr.next, li + 1), inflight := 0)])
    ensures HandleSnapshotResp(n, from, li, rnd) == SendAppend(MaybeAdvance(n1, rnd), from)
  {
    assert WithProgress(n, from, n1.prs[from]) == n1;
  }

  /** A rejection with a hint: the leader goes back to it, as far as its own log allows, and tries again at once. */
  lemma RejectRule(n: Node, m: Message, rnd: nat)
    requires m.body.AppendEntriesResp? && !m.body.success && m.term == n.hs.term && n.role == Leader && m.from in n.prs
    ensures var g, pr, c := RaftCore.Step(n, m, rnd), n.prs[m.from], m.body.conflictIndex;
            var credited := pr.(ackedReadCtx := Max(pr.ackedReadCtx, m.body.readCtx));
            && g.commit == n.commit && g.out.committed == n.out.committed && g.pendingReads == n.pendingReads && g.role == Leader
            && (c == 0 ==> g == n.(prs := n.prs[m.from := credited]))
            && (c > 0 ==> m.from in g.prs && g.prs[m.from].ackedReadCtx == credited.ackedReadCtx
                          && Served(g, credited.(next := Min(c, n.log.LastIndex() + 1), inflight := 0), m.from, g))
  {
    var pr, c := n.prs[m.from], m.body.conflictIndex;
    var credited := pr.(ackedReadCtx := Max(pr.ackedReadCtx, m.body.readCtx));
    if c > 0 {
      var back := credited.(next := Min(c, n.log.LastIndex() + 1), inflight := 0);
      var q := n.(prs := n.prs[m.from := back]);
      RejectIs(n, m, rnd, q);
      SentTo(n, q, m.from, back, SendAppend(q, m.from));
    }
  }

  lemma RejectIs(n: Node, m: Message, rnd: nat, q: Node)
    requires m.body.AppendEntriesResp? && !m.body.success && m.term == n.hs.term && n.role == Leader && m.from in n.prs && m.body.conflictIndex > 0
    requires q == n.(prs := n.prs[m.from := n.prs[m.from].(ackedReadCtx := Max(n.prs[m.from].ackedReadCtx, m.body.readCtx),
                                                          next := Min(m.body.conflictIndex, n.log.LastIndex() + 1), inflight := 0)])
    ensures RaftCore.Step(n, m, rnd) == SendAppend(q, m.from)
  {}

  /** An acknowledgement: the peer is known to reach the index, a slot of the pipeline is free, commits and reads are
      counted, and more is sent while the peer is behind. */
  lemma AckRule(n: Node, m: Message, rnd: nat)
    requires m.body.AppendEntriesResp? && m.body.success && m.term == n.hs.term && n.role == Leader && m.from in n.prs
    ensures var pr, i := n.prs[m.from], m.body.matchIndex;
            var pr2 := pr.(matched := Max(pr.matched, i), next := Max(pr.next, i + 1), inflight := Max(pr.inflight - 1, 0),
                           ackedReadCtx := Max(pr.ackedReadCtx, m.body.readCtx));
            && Follows(n, m.from, pr2, RaftCore.Step(n, m, rnd), pr2.next <= n.log.LastIndex())
            && (RaftCore.Step(n, m, rnd).role == Leader ==> ReadsBy(n.(prs := n.prs[m.from := pr2]), RaftCore.Step(n, m, rnd)))
  {
    var pr, i := n.prs[m.from], m.body.matchIndex;
    var pr2 := pr.(matched := Max(pr.matched, i), next := Max(pr.next, i + 1), inflight := Max(pr.inflight - 1, 0),
                   ackedReadCtx := Max(pr.ackedReadCtx, m.body.readCtx));
    var n1 := n.(prs := n.prs[m.from := pr2]);
    var q := MaybeAdvance(n1, rnd);
    var a := ProcessReadAcks(q);
    CommitShape(n1, rnd);
    AckIs(n, m, rnd, n1, a);
    ReadsOnly(q);
    if q.role == Leader { ReadsCounted(n1, q, RaftCore.Step(n, m, rnd)); }
    if n.log.snapIndex <= n.commit {
      QuorumCommits(n1, rnd);
      CommitsKept(n1, q, RaftCore.Step(n, m, rnd));
    }
    if q.role == Leader && pr2.next <= n.log.LastIndex() { SentTo(n, a, m.from, pr2, SendAppend(a, m.from)); }
  }

  lemma AckIs(n: Node, m: Message, rnd: nat, n1: Node, a: Node)
    requires m.body.AppendEntriesResp? && m.body.success && m.term == n.hs.term && n.role == Leader && m.from in n.prs
    requires var pr, i := n.prs[m.from], m.body.matchIndex;
             n1 == n.(prs := n.prs[m.from := pr.(matched := Max(pr.matched, i), next := Max(pr.next, i + 1), inflight := Max(pr.inflight - 1, 0),
                                                 ackedReadCtx := Max(pr.ackedReadCtx, m.body.readCtx))])
    requires a == ProcessReadAcks(MaybeAdvance(n1, rnd))
    ensures RaftCore.Step(n, m, rnd) == if m.from in a.prs && a.prs[m.from].next <= n.log.LastIndex() then SendAppend(a, m.from) else a
  {
    RespStep(n, m, rnd);
    AckHandled(n, m.from, m.body.matchIndex, m.body.conflictIndex, m.body.readCtx, rnd, n1);
  }

  lemma RespStep(n: Node, m: Message, rnd: nat)
    requires m.body.AppendEntriesResp? && m.term == n.hs.term
    ensures RaftCore.Step(n, m, rnd) == HandleAppendResp(n, m.from, m.body.success, m.body.matchIndex, m.body.conflictIndex, m.body.readCtx, rnd)
  {}

  lemma AckHandled(n: Node, from: NodeId, i: Index, ci: Index, ctx: nat, rnd: nat, n1: Node)
    requires n.role == Leader && from in n.prs
    requires var pr := n.prs[from];
             n1 == n.(prs := n.prs[from := pr.(matched := Max(pr.matched, i), next := Max(pr.next, i + 1), inflight := Max(pr.inflight - 1, 0),
                                               ackedReadCtx := Max(pr.ackedReadCtx, ctx))])
    ensures HandleAppendResp(n, from, true, i, ci, ctx, rnd) == KeepSending(ProcessReadAcks(MaybeAdvance(n1, rnd)), from, n.log.LastIndex())
  {
    assert Advanced(Credited(n.prs[from], ctx), i) == n1.prs[from];
  }

  lemma ReadsOnly(q: Node)
    ensures var a := ProcessReadAcks(q);
            a == q.(pendingReads := a.pendingReads, out := q.out.(readStates := a.out.readStates))
  {}

  /** The round a voter is known to have confirmed; the leader itself stands for its own. */
  function RoundOf(n: Node, v: NodeId): nat {
    if v == n.cfg.id then n.readCtx else if v in n.prs then n.prs[v].ackedReadCtx else 0
  }

  function Confirming(n: Node, vs: seq<NodeId>, ctx: nat): nat {
    if vs == [] then 0 else (if RoundOf(n, vs[0]) >= ctx then 1 else 0) + Confirming(n, vs[1..], ctx)
  }

  lemma {:induction false} ConfirmingIs(n: Node, vs: seq<NodeId>, ctx: nat)
    ensures Confirming(n, vs, ctx) == CountAtLeast(ReadAcks(n, vs), ctx)
    decreases |vs|
  {
    if vs != [] {
      ConfirmingIs(n, vs[1..], ctx);
      assert ReadAcks(n, vs)[1..] == ReadAcks(n, vs[1..]);
    }
  }

  /** Of the pending reads exactly those go out whose round a majority of the voters has confirmed. */
  ghost predicate ReadsBy(n: Node, g: Node) {
    forall p :: p in n.pendingReads && p.ctx > 0 ==>
      && (p !in g.pendingReads <==> 2 * Confirming(n, Voters(n), p.ctx) > |Voters(n)|)
      && (p !in g.pendingReads ==> ReadState(p.id, p.index) in g.out.readStates)
  }

  lemma ReadsCounted(n: Node, q: Node, g: Node)
    requires q == n.(commit := q.commit, out := q.out) && g.pendingReads == ProcessReadAcks(q).pendingReads
    requires g.out.readStates == ProcessReadAcks(q).out.readStates
    ensures ReadsBy(n, g)
  {
    forall p | p in n.pendingReads && p.ctx > 0 ensures
      && (p !in g.pendingReads <==> 2 * Confirming(n, Voters(n), p.ctx) > |Voters(n)|)
      && (p !in g.pendingReads ==> ReadState(p.id, p.index) in g.out.readStates)
    {
      ReleaseRule(q, p);
      ConfirmingIs(q, Voters(q), p.ctx);
      SameConfirming(n, q, Voters(q), p.ctx);
    }
  }

  lemma {:induction false} SameConfirming(n: Node, q: Node, vs: seq<NodeId>, ctx: nat)
    requires n.cfg == q.cfg && n.readCtx == q.readCtx && n.prs == q.prs
    ensures Confirming(n, vs, ctx) == Confirming(q, vs, ctx)
    decreases |vs|
  {
    if vs != [] { SameConfirming(n, q, vs[1..], ctx); }
  }

  // ------------------------------------------------------------- snapshots

  /** An append of an older term is refused in the node's own, with its round. */
  lemma OldAppendRule(n: Node, m: Message, rnd: nat)
    requires m.body.AppendEntries? && m.term < n.hs.term
    ensures OnlySends(n, RaftCore.Step(n, m, rnd), m.from, n.hs.term, AppendEntriesResp(false, 0, 0, m.body.readCtx))
  {}

  /** A snapshot of the node's term or a later one.  Behind the commit it is only answered; if the log holds its last
      entry it is a commit and the log stays; otherwise it replaces log, base and voters and goes to the host. */
  ghost predicate Installed(n: Node, g: Node, s: Snapshot, from: NodeId, t: Term) {
    if s.lastIndex <= n.commit then
      g.log == n.log && g.commit == n.commit && g.snapshot == n.snapshot && g.out.snapshot == n.out.snapshot
      && g.out.committed == n.out.committed && Answers(n, g, from, t, InstallSnapshotResp(n.commit))
    else if n.log.TermOf(s.lastIndex) == Some(s.lastTerm) then
      && g.log == n.log && g.snapshot == n.snapshot && g.out.snapshot == n.out.snapshot
      && (n.log.snapIndex <= n.commit ==> Emits(n.out.committed, g, n.commit, s.lastIndex)) && Answers(n, g, from, t, InstallSnapshotResp(s.lastIndex))
    else
      && g.log == RaftLog(s.lastIndex, s.lastTerm, []) && g.commit == s.lastIndex && g.votersBase == s.voters && g.snapshot == Some(s)
      && g.out.snapshot == Some(s) && g.out.committed == n.out.committed && Answers(n, g, from, t, InstallSnapshotResp(s.lastIndex))
  }

  lemma HandledSnapshot(c: Node, from: NodeId, s: Snapshot, rnd: nat)
    ensures Installed(c, HandleSnapshot(c, from, s, rnd), s, from, c.hs.term)
    ensures HandleSnapshot(c, from, s, rnd).role == Follower && HandleSnapshot(c, from, s, rnd).leaderId == Some(from)
  {
    var h := Heard(c, from);
    if s.lastIndex > c.commit && c.log.TermOf(s.lastIndex) == Some(s.lastTerm) && c.log.snapIndex <= c.commit {
      var g := FollowerAdvances(h, s.lastIndex, rnd);
    }
  }

  lemma SnapshotRule(n: Node, m: Message, rnd: nat)
    requires m.body.InstallSnapshot? && n.hs.term <= m.term
    ensures var g := RaftCore.Step(n, m, rnd);
            Installed(n, g, m.body.snapshot, m.from, m.term) && g.role == Follower && g.leaderId == Some(m.from)
  {
    var c := SnapshotStepAny(n, m, rnd);
    HandledSnapshot(c, m.from, m.body.snapshot, rnd);
    SameInstalled(n, c, RaftCore.Step(n, m, rnd), m.body.snapshot, m.from, m.term);
  }

  lemma SnapshotStepAny(n: Node, m: Message, rnd: nat) returns (c: Node)
    requires m.body.InstallSnapshot? && n.hs.term <= m.term
    ensures c.log == n.log && c.commit == n.commit && c.snapshot == n.snapshot && c.hs.term == m.term && c.cfg == n.cfg
    ensures c.out.snapshot == n.out.snapshot && c.out.committed == n.out.committed && c.out.messages == n.out.messages
    ensures RaftCore.Step(n, m, rnd) == HandleSnapshot(c, m.from, m.body.snapshot, rnd)
  {
    c := CatchUp(n, m, rnd);
  }

  lemma SameInstalled(n: Node, c: Node, g: Node, s: Snapshot, from: NodeId, t: Term)
    requires c.log == n.log && c.commit == n.commit && c.snapshot == n.snapshot && c.cfg == n.cfg
    requires c.out.snapshot == n.out.snapshot && c.out.committed == n.out.committed && c.out.messages == n.out.messages && Installed(c, g, s, from, t)
    ensures Installed(n, g, s, from, t)
  {}

  /** Local compaction happens exactly above the old base, up to the commit, where the log knows the term; the snapshot
      carries index, term, voters and data, and the log starts behind it. */
  lemma CompactRule(n: Node, applied: Index, data: Kvsm.State)
    ensures var (g, s) := RaftCore.Compact(n, applied, data);
            if n.log.snapIndex < applied <= n.commit && n.log.TermOf(applied).Some? then
              && s.Some? && s.value.lastIndex == applied && n.log.TermOf(applied) == Some(s.value.lastTerm) && s.value.data == data
              && s.value.voters == VotersAt(n.votersBase, n.log.entries, applied)
              && g.snapshot == s && g.votersBase == s.value.voters && g.log.snapIndex == applied && g.log.snapTerm == s.value.lastTerm
              && (forall k: Index :: g.log.Get(k) == if k <= applied then None else n.log.Get(k))
              && g == n.(log := g.log, snapshot := g.snapshot, votersBase := g.votersBase)
            else g == n && s == None
  {}

  // ------------------------------------------------------------- ticks

  /** A leader's tick: every heartbeat interval it serves every other voter. */
  lemma LeaderTickRule(n: Node, rnd: nat)
    requires n.role == Leader
    ensures var g := Tick(n, rnd);
            && g.ticks == n.ticks + 1 && g.log == n.log && g.hs == n.hs && g.commit == n.commit && g.role == Leader
            && (n.heartbeatElapsed + 1 < n.cfg.heartbeatTick ==> g == n.(ticks := g.ticks, heartbeatElapsed := n.heartbeatElapsed + 1))
            && (n.heartbeatElapsed + 1 >= n.cfg.heartbeatTick ==> g.heartbeatElapsed == 0 && ServesAll(g.(prs := n.prs), g))
  {
    var t := n.(ticks := n.ticks + 1);
    TickIsLeader(n, t, rnd);
    if n.heartbeatElapsed + 1 >= n.cfg.heartbeatTick {
      var z := t.(heartbeatElapsed := 0);
      BroadcastRule(z);
      LocalServes(n, z, Broadcast(z));
    }
  }

  /** Any other tick: until the timeout only the counters move; then the timer starts over, and a voter asks for
      pre-votes or stands for election, as configured.  A sole voter needs no pre-votes. */
  lemma FollowerTickRule(n: Node, rnd: nat)
    requires n.role != Leader
    ensures var g := Tick(n, rnd);
            var counted := n.(ticks := n.ticks + 1, electionElapsed := n.electionElapsed + 1);
            var again := n.(ticks := n.ticks + 1, electionElapsed := 0, timeout := rnd);
            if n.electionElapsed + 1 < n.timeout then g == counted
            else if n.cfg.id !in Voters(n) then g == again
            else if !n.cfg.preVote then Campaigned(again, g)
            else if Elects(n, map[n.cfg.id := true]) then Campaigned(again.(role := PreCandidate, votes := map[n.cfg.id := true]), g)
            else Probed(again, g)
  {
    var t := n.(ticks := n.ticks + 1);
    TickIsOther(n, t, rnd);
    var again := n.(ticks := n.ticks + 1, electionElapsed := 0, timeout := rnd);
    assert ResetTimer(t, rnd) == again && Voters(again) == Voters(n);
    assert Yes(again, map[n.cfg.id := true]) == Yes(n, map[n.cfg.id := true]);
    FiresRule(n, t, again, rnd);
    CampaignRule(again, rnd);
    if Elects(n, map[n.cfg.id := true]) {
      var m := again.(role := PreCandidate, votes := map[n.cfg.id := true]);
      assert Granted(m) == Yes(n, m.votes) && Voters(m) == Voters(n);
      CampaignRule(m, rnd);
      PreSkips(again, m, rnd);
    } else {
      CampaignPreProbes(again, rnd);
    }
  }

  lemma PreSkips(n: Node, m: Node, rnd: nat)
    requires m == n.(role := PreCandidate, votes := map[n.cfg.id := true]) && HasQuorum(m)
    ensures CampaignPre(n, rnd) == Campaign(m, rnd)
  {}

  lemma FiresRule(n: Node, t: Node, again: Node, rnd: nat)
    requires t == n.(ticks := n.ticks + 1) && again == ResetTimer(t, rnd)
    ensures n.electionElapsed + 1 >= n.timeout ==>
      TickOther(t, rnd) == if n.cfg.id !in Voters(n) then again else if n.cfg.preVote then CampaignPre(again, rnd) else Campaign(again, rnd)
    ensures n.electionElapsed + 1 < n.timeout ==> TickOther(t, rnd) == t.(electionElapsed := n.electionElapsed + 1)
  {}
}
