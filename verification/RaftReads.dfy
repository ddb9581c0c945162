/** What one event does to the read rounds of a node (crates/raft/src/node.rs:407-463, 872-887).

    A leader numbers its read rounds with `readCtx`, stamps its appends with it and credits each follower
    with the highest number echoed back.  The lemmas follow these numbers through every handler. */
module RaftReads {
  import opened Prelude
  import opened RaftTypes
  import opened RaftLogs
  import opened RaftCore
  import opened RaftHost
  import opened RaftProtocol
  import opened RaftSending
  import Kvsm

  /** The read round that node `v` has confirmed to this leader. */
  function Acked(n: Node, v: NodeId): nat { if v in n.prs then n.prs[v].ackedReadCtx else 0 }

  /** A message that a node may send without touching its read rounds: no reply to an append, and an append
      only as leader, stamped with its term and round. */
  predicate Stamped(n: Node, m: Message) {
    && m.from == n.cfg.id
    && (m.body.AppendEntries? ==> n.role == Leader && m.term == n.hs.term && m.body.readCtx == n.readCtx)
    && !m.body.AppendEntriesResp?
  }

  ghost predicate Adds(n: Node, a: seq<Message>, b: seq<Message>) {
    |a| <= |b| && b[..|a|] == a && forall i :: |a| <= i < |b| ==> Stamped(n, b[i])
  }

  /** Role, term and read rounds stay; confirmations are not gained; messages are only added. */
  ghost predicate Calm(n: Node, m: Node) {
    && m.cfg == n.cfg && m.role == n.role && m.hs.term == n.hs.term && m.readCtx == n.readCtx
    && m.pendingReads == n.pendingReads && m.out.readStates == n.out.readStates
    && (forall v :: Acked(m, v) <= Acked(n, v))
    && Adds(m, n.out.messages, m.out.messages)
  }

  lemma CalmTransitive(a: Node, b: Node, c: Node)
    requires Calm(a, b) && Calm(b, c)
    ensures Calm(a, c)
  {
    var x, y, z := a.out.messages, b.out.messages, c.out.messages;
    assert z[..|x|] == z[..|y|][..|x|];
    forall i | |x| <= i < |z| ensures Stamped(c, z[i]) {
      if i < |y| { assert z[i] == z[..|y|][i] == y[i]; }
    }
    forall v ensures Acked(c, v) <= Acked(a, v) { assert Acked(c, v) <= Acked(b, v) <= Acked(a, v); }
  }

  /** The node gave up leading; nothing was sent on the way. */
  ghost predicate Down(n: Node, m: Node) {
    && m.cfg == n.cfg && m.role == Follower && m.prs == map[] && m.pendingReads == []
    && m.out.messages == n.out.messages && m.out.readStates == n.out.readStates
  }

  ghost predicate Mild(n: Node, m: Node) { Calm(n, m) || Down(n, m) }

  /** It can send appends only as leader. */
  predicate Placed(n: Node) { n.role == Leader || n.prs == map[] }

  // ------------------------------------------------------------- sending

  lemma {:induction false} SendEachCalm(n: Node, peers: seq<NodeId>, term: Term, body: Body)
    requires body.RequestVote? || body.PreVote?
    ensures Calm(n, SendEach(n, peers, term, body))
    decreases |peers|
  {
    if peers != [] {
      var n1 := if peers[0] == n.cfg.id then n else Send(n, peers[0], term, body);
      assert Calm(n, n1);
      SendEachCalm(n1, peers[1..], term, body);
      CalmTransitive(n, n1, SendEach(n1, peers[1..], term, body));
    }
  }

  lemma SendAppendCalm(n: Node, peer: NodeId)
    requires Placed(n)
    ensures Calm(n, SendAppend(n, peer)) && Placed(SendAppend(n, peer))
  {}

  lemma {:induction false} SendAppendsCalm(n: Node, peers: seq<NodeId>)
    requires Placed(n)
    ensures Calm(n, SendAppends(n, peers)) && Placed(SendAppends(n, peers))
    decreases |peers|
  {
    if peers != [] {
      SendAppendCalm(n, peers[0]);
      SendAppendsCalm(SendAppend(n, peers[0]), peers[1..]);
      CalmTransitive(n, SendAppend(n, peers[0]), SendAppends(n, peers));
    }
  }

  lemma BroadcastCalm(n: Node)
    requires Placed(n)
    ensures Calm(n, Broadcast(n)) && Placed(Broadcast(n))
  {
    var m := SyncProgress(n);
    assert Calm(n, m) && Placed(m);
    SendAppendsCalm(m, Ascending(m.prs.Keys));
    CalmTransitive(n, m, Broadcast(n));
  }

  lemma BroadcastMild(n: Node, m: Node)
    requires Mild(n, m) && Placed(m)
    ensures Mild(n, Broadcast(m)) && Placed(Broadcast(m))
  {
    BroadcastCalm(m);
    if Calm(n, m) { CalmTransitive(n, m, Broadcast(m)); } else { DownSendsNothing(m, Ascending(m.prs.Keys)); }
  }

  lemma {:induction false} DownSendsNothing(m: Node, peers: seq<NodeId>)
    requires m.prs == map[]
    ensures SendAppends(m, peers) == m
    decreases |peers|
  {
    if peers != [] { DownSendsNothing(m, peers[1..]); }
  }

  // ------------------------------------------------------------- committing and leading

  lemma AdvanceMild(n: Node, c: Index, rnd: nat)
    requires Placed(n)
    ensures Mild(n, AdvanceCommit(n, c, rnd)) && Placed(AdvanceCommit(n, c, rnd))
  {}

  lemma MaybeAdvanceMild(n: Node, rnd: nat)
    requires Placed(n)
    ensures Mild(n, MaybeAdvance(n, rnd)) && Placed(MaybeAdvance(n, rnd))
  {
    var sorted := SortDesc(Matches(n, Voters(n)));
    if n.role == Leader && |sorted| >= QuorumSize(n) {
      AdvanceMild(n, sorted[QuorumSize(n) - 1], rnd);
    }
  }

  lemma AppendLocalMild(n: Node, payload: Payload, rnd: nat)
    requires Placed(n)
    ensures Mild(n, AppendLocal(n, payload, rnd)) && Placed(AppendLocal(n, payload, rnd))
  {
    var p := Pushed(n, payload);
    assert Calm(n, p) && Placed(p);
    MaybeAdvanceMild(p, rnd);
    var q := MaybeAdvance(p, rnd);
    if Calm(p, q) { CalmTransitive(n, p, q); }
    BroadcastMild(n, q);
  }

  /** A new leader starts its rounds over. */
  ghost predicate Fresh(m: Node) {
    m.readCtx == 0 && m.pendingReads == [] && forall v :: Acked(m, v) == 0
  }

  lemma BecomeLeaderFresh(n: Node, rnd: nat)
    ensures Mild(AsLeader(n), BecomeLeader(n, rnd))
    ensures BecomeLeader(n, rnd).role == Leader ==> Fresh(BecomeLeader(n, rnd)) && BecomeLeader(n, rnd).hs.term == n.hs.term
  {
    var l := AsLeader(n);
    AppendLocalMild(l, Noop, rnd);
    BroadcastMild(l, AppendLocal(l, Noop, rnd));
    assert Fresh(l);
    var m := BecomeLeader(n, rnd);
    if m.role == Leader { forall v ensures Acked(m, v) == 0 { assert Acked(m, v) <= Acked(l, v); } }
  }

  // ------------------------------------------------------------- one event

  /** A reply that confirms a read round: not the answer to a message of an older term, which has neither a
      match nor a hint and yet carries the number of the old message under the new term. */
  predicate Genuine(m: Message) {
    m.body.AppendEntriesResp? && m.body.readCtx > 0 && (m.body.success || m.body.conflictIndex > 0)
  }

  predicate StaleEcho(m: Message) {
    m.body.AppendEntriesResp? && m.body.readCtx > 0 && !m.body.success && m.body.conflictIndex == 0
  }

  /** The confirmation from `v` that the event brings to a leader of term `t`. */
  function CreditOf(ev: Event, t: Term, v: NodeId): nat {
    if ev.Deliver? && ev.msg.from == v && ev.msg.body.AppendEntriesResp? && ev.msg.term == t then ev.msg.body.readCtx else 0
  }

  /** The event registers the read `p`. */
  predicate NewRead(n: Node, ev: Event, p: PendingRead) {
    && ev.ClientRead? && n.role == Leader && n.log.TermOf(n.commit) == Some(n.hs.term)
    && p == PendingRead(n.readCtx + 1, ev.readId, n.commit)
  }

  /** The node leads on: rounds advance only by a new read, confirmations only by the message delivered. */
  ghost predicate LeadsOn(n: Node, ev: Event, m: Node) {
    && n.role == Leader && n.hs.term == m.hs.term && n.readCtx <= m.readCtx
    && (forall v :: Acked(m, v) <= Max(Acked(n, v), CreditOf(ev, m.hs.term, v)))
    && (forall p :: p in m.pendingReads ==> p in n.pendingReads || (NewRead(n, ev, p) && p.ctx <= m.readCtx))
  }

  predicate NewReign(n: Node, m: Node) {
    n.hs.term < m.hs.term || (n.role == Candidate && n.hs.term == m.hs.term)
  }

  /** The reply repeats the round of the append just delivered, in the append's own term. */
  predicate Echoes(ev: Event, m: Node, msg: Message) {
    && ev.Deliver? && ev.msg.body.AppendEntries? && msg.body.AppendEntriesResp?
    && ev.msg.term == msg.term == m.hs.term && ev.msg.body.readCtx == msg.body.readCtx
  }

  ghost predicate MessageOk(n: Node, ev: Event, m: Node, msg: Message) {
    && msg.from == n.cfg.id
    && (msg.body.AppendEntries? ==> m.role == Leader && msg.term == m.hs.term && msg.body.readCtx <= m.readCtx)
    && (Genuine(msg) ==> Echoes(ev, m, msg))
    && (msg.body.AppendEntriesResp? ==> msg.term == m.hs.term)
  }

  /** A quorum of voters has confirmed round `ctx`, the leader itself included. */
  ghost predicate ConfirmedBy(n: Node, ev: Event, ctx: nat, q: set<NodeId>) {
    && (forall v :: v in q ==> v in Voters(n)) && 2 * |q| > |Voters(n)|
    && forall v :: v in q ==> v == n.cfg.id || Max(Acked(n, v), CreditOf(ev, n.hs.term, v)) >= ctx
  }

  ghost predicate ReleasedRight(n: Node, ev: Event, rs: ReadState) {
    exists p: PendingRead, q :: && n.role == Leader && rs == ReadState(p.id, p.index)
                   && (p in n.pendingReads || NewRead(n, ev, p)) && ConfirmedBy(n, ev, p.ctx, q)
  }

  ghost predicate Outcome(n: Node, ev: Event, m: Node) {
    && (m.role == Leader ==> LeadsOn(n, ev, m) || (Fresh(m) && NewReign(n, m)))
    && (forall i :: 0 <= i < |m.out.messages| ==> MessageOk(n, ev, m, m.out.messages[i]))
    && (forall rs :: rs in m.out.readStates ==> ReleasedRight(n, ev, rs))
  }

  predicate Still(n: Node) { n.out.messages == [] && n.out.readStates == [] }

  lemma CalmOutcome(n: Node, ev: Event, n1: Node, m: Node)
    requires Still(n) && n1.cfg == n.cfg && n1.role == n.role && n1.hs.term == n.hs.term && n1.readCtx == n.readCtx
    requires n1.pendingReads == n.pendingReads && n1.out == n.out && (forall v :: Acked(n1, v) <= Acked(n, v))
    requires Mild(n1, m)
    ensures Outcome(n, ev, m)
  {
    if m.role == Leader {
      forall v ensures Acked(m, v) <= Acked(n, v) { assert Acked(m, v) <= Acked(n1, v); }
    }
  }

  lemma ElectedOutcome(n: Node, ev: Event, c: Node, rnd: nat)
    requires Still(n) && Still(c) && c.cfg == n.cfg && NewReign(n, c)
    ensures Outcome(n, ev, BecomeLeader(c, rnd))
  {
    BecomeLeaderFresh(c, rnd);
  }

  lemma CampaignOutcome(n: Node, ev: Event, c: Node, rnd: nat)
    requires Still(n) && Still(c) && c.cfg == n.cfg && n.hs.term == c.hs.term
    ensures Outcome(n, ev, Campaign(c, rnd))
  {
    var m := AsCandidate(c);
    assert m.hs.term == n.hs.term + 1 && Still(m);
    if HasQuorum(m) {
      ElectedOutcome(n, ev, m, rnd);
    } else {
      SendEachCalm(m, Voters(m), m.hs.term, RequestVote(m.log.LastIndex(), m.log.LastTerm()));
    }
  }

  lemma CampaignPreOutcome(n: Node, ev: Event, c: Node, rnd: nat)
    requires Still(n) && Still(c) && c.cfg == n.cfg && n.hs.term == c.hs.term
    ensures Outcome(n, ev, CampaignPre(c, rnd))
  {
    var m := AsPreCandidate(c);
    if HasQuorum(m) {
      CampaignOutcome(n, ev, m, rnd);
    } else {
      SendEachCalm(m, Voters(m), m.hs.term + 1, PreVote(m.log.LastIndex(), m.log.LastTerm()));
    }
  }

  lemma TickOutcome(n: Node, id: NodeId, rnd: nat)
    requires Still(n)
    ensures Outcome(n, Ticks(id, rnd), Tick(n, rnd))
  {
    var ev, n1 := Ticks(id, rnd), n.(ticks := n.ticks + 1);
    if n.role == Leader {
      var n2 := n1.(heartbeatElapsed := 0);
      BroadcastCalm(n2);
      if n1.heartbeatElapsed + 1 >= n1.cfg.heartbeatTick {
        CalmOutcome(n, ev, n2, Broadcast(n2));
      } else {
        var n3 := n1.(heartbeatElapsed := n1.heartbeatElapsed + 1);
        assert Calm(n3, n3);
        CalmOutcome(n, ev, n3, n3);
      }
    } else if n1.electionElapsed + 1 < n1.timeout || n1.cfg.id !in Voters(n1) {
    } else if n1.cfg.preVote {
      CampaignPreOutcome(n, ev, ResetTimer(n1, rnd), rnd);
    } else {
      CampaignOutcome(n, ev, ResetTimer(n1, rnd), rnd);
    }
  }

  lemma ProposeOutcome(n: Node, id: NodeId, cmd: Kvsm.Command, rnd: nat)
    requires Still(n)
    ensures Outcome(n, ClientWrite(id, cmd, rnd), Propose(n, cmd, rnd).0)
  {
    var ev := ClientWrite(id, cmd, rnd);
    if n.role == Leader {
      AppendLocalMild(n, Normal(cmd), rnd);
      CalmOutcome(n, ev, n, AppendLocal(n, Normal(cmd), rnd));
    }
  }

  // ------------------------------------------------------------- registering and releasing reads

  lemma {:induction false} ReadyFrom(pending: seq<PendingRead>, ctx: nat, rs: ReadState) returns (p: PendingRead)
    requires rs in ReadyReads(pending, ctx)
    ensures p in pending && p.ctx <= ctx && rs == ReadState(p.id, p.index)
    decreases |pending|
  {
    if pending[0].ctx <= ctx && rs == ReadState(pending[0].id, pending[0].index) {
      p := pending[0];
    } else {
      p := ReadyFrom(pending[1..], ctx, rs);
    }
  }

  lemma {:induction false} WaitingIn(pending: seq<PendingRead>, ctx: nat)
    ensures forall p :: p in WaitingReads(pending, ctx) ==> p in pending
    decreases |pending|
  {
    if pending != [] { WaitingIn(pending[1..], ctx); }
  }

  lemma ReadIndexOutcome(n: Node, id: NodeId, rid: nat)
    requires Still(n) && n.cfg.id in Voters(n)
    ensures Outcome(n, ClientRead(id, rid), ReadIndex(n, rid).0)
  {
    var ev := ClientRead(id, rid);
    if n.role == Leader && n.log.TermOf(n.commit) == Some(n.hs.term) {
      var p := PendingRead(n.readCtx + 1, rid, n.commit);
      var m := n.(readCtx := n.readCtx + 1, pendingReads := n.pendingReads + [p]);
      assert NewRead(n, ev, p);
      assert Voters(m) == Voters(n);
      if QuorumSize(m) == 1 {
        AloneReleases(n, ev, m, p);
      } else {
        BroadcastCalm(m);
        forall v ensures Acked(Broadcast(m), v) <= Acked(n, v) { assert Acked(Broadcast(m), v) <= Acked(m, v); }
      }
    }
  }

  lemma AloneReleases(n: Node, ev: Event, m: Node, p: PendingRead)
    requires Still(n) && n.cfg.id in Voters(n) && NewRead(n, ev, p) && |Voters(n)| / 2 + 1 == 1
    requires m == n.(readCtx := n.readCtx + 1, pendingReads := n.pendingReads + [p])
    ensures Outcome(n, ev, ReleaseReads(m, m.readCtx))
  {
    var m2 := ReleaseReads(m, m.readCtx);
    WaitingIn(m.pendingReads, m.readCtx);
    forall rs | rs in m2.out.readStates ensures ReleasedRight(n, ev, rs) {
      var x := ReadyFrom(m.pendingReads, m.readCtx, rs);
      assert ConfirmedBy(n, ev, x.ctx, {n.cfg.id});
    }
  }

  ghost predicate Distinct(voters: seq<NodeId>) {
    voters != [] && forall i, j :: 0 <= i < j < |voters| ==> voters[i] != voters[j]
  }

  /** The round that a quorum has confirmed releases what was registered up to it. */
  lemma ProcessReleases(n: Node, ev: Event, m: Node, rs: ReadState)
    requires Distinct(Voters(n)) && n.role == Leader && m.cfg == n.cfg && m.pendingReads == n.pendingReads && m.out.readStates == []
    requires Voters(m) == Voters(n)
    requires forall v :: Acked(m, v) <= Max(Acked(n, v), CreditOf(ev, n.hs.term, v))
    requires rs in ProcessReadAcks(m).out.readStates
    ensures ReleasedRight(n, ev, rs)
  {
    var voters := Voters(n);
    var acks := ReadAcks(m, voters);
    var keys := set v | v in voters;
    var q := QthIsQuorum(voters, keys, acks);
    SetOfVoters(voters, keys);
    var ctx := SortDesc(acks)[|voters| / 2];
    var p := ReadyFrom(m.pendingReads, ctx, rs);
    forall v | v in q ensures v == n.cfg.id || Max(Acked(n, v), CreditOf(ev, n.hs.term, v)) >= p.ctx {
      var i :| 0 <= i < |voters| && voters[i] == v && acks[i] >= ctx;
      assert acks[i] == ReadAckOf(m, v);
      if v != n.cfg.id { assert Acked(m, v) >= p.ctx; }
    }
    assert ConfirmedBy(n, ev, p.ctx, q);
  }

  // ------------------------------------------------------------- messages

  predicate Harmless(n: Node, t: Term, m: Message) {
    m.from == n.cfg.id && !m.body.AppendEntries? && !Genuine(m) && (m.body.AppendEntriesResp? ==> m.term == t)
  }

  /** Nothing but messages that confirm no read, and not leading. */
  lemma FollowerOutcome(n: Node, ev: Event, m: Node)
    requires m.role != Leader && m.out.readStates == []
    requires forall i :: 0 <= i < |m.out.messages| ==> Harmless(n, m.hs.term, m.out.messages[i])
    ensures Outcome(n, ev, m)
  {}

  lemma VoteOutcome(n: Node, ev: Event, c: Node, m: Message, rnd: nat)
    requires Still(n) && Still(c) && c.cfg == n.cfg && (c == n || c.role == Follower) && (m.body.RequestVote? || m.body.RequestVoteResp?)
    ensures Outcome(n, ev, Dispatch(c, m, rnd))
  {
    if m.body.RequestVote? {
      var d := HandleRequestVote(c, m.from, m.body.lastLogIndex, m.body.lastLogTerm, rnd);
      if c == n { CalmOutcomeOne(n, ev, d); } else { FollowerOutcome(n, ev, d); }
    } else if c.role == Candidate {
      var c2 := c.(votes := c.votes[m.from := m.body.granted]);
      if HasQuorum(c2) { ElectedOutcome(n, ev, c2, rnd); } else { FollowerOutcome(n, ev, c2); }
    } else {
      if c == n { assert Calm(n, n); CalmOutcome(n, ev, n, n); } else { FollowerOutcome(n, ev, c); }
    }
  }

  lemma CalmOutcomeOne(n: Node, ev: Event, m: Node)
    requires Still(n) && m.role == n.role && m.hs.term == n.hs.term && m.readCtx == n.readCtx && m.prs == n.prs
    requires m.pendingReads == n.pendingReads && m.out.readStates == []
    requires forall i :: 0 <= i < |m.out.messages| ==> Harmless(n, m.hs.term, m.out.messages[i])
    ensures Outcome(n, ev, m)
  {}

  /** `d` is `c` as a follower that has sent the reply `x` and nothing else. */
  ghost predicate Replied(c: Node, d: Node, ctx: nat, x: Message) {
    var quiet := d.role == Follower && d.hs.term == c.hs.term && d.out.readStates == c.out.readStates && d.out.messages == c.out.messages + [x];
    quiet && x.from == c.cfg.id && x.term == c.hs.term && x.body.AppendEntriesResp? && x.body.readCtx == ctx
  }

  lemma ReplySays(n: Node, to: NodeId, ok: bool, mi: Index, ci: Index, ctx: nat) returns (x: Message)
    requires n.role == Follower
    ensures Replied(n, Reply(n, to, ok, mi, ci, ctx), ctx, x) && x == Message(n.cfg.id, to, n.hs.term, AppendEntriesResp(ok, mi, ci, ctx))
  {
    x := Message(n.cfg.id, to, n.hs.term, AppendEntriesResp(ok, mi, ci, ctx));
  }

  /** Merging a batch and committing on it sends nothing. */
  lemma AbsorbQuiet(n: Node, es: seq<Entry>, target: Index, rnd: nat) returns (d: Node)
    requires n.role == Follower
    ensures d == CommitUpTo(Absorb(n, es), target, rnd)
    ensures d.role == Follower && d.hs == n.hs && d.cfg == n.cfg && d.out.messages == n.out.messages && d.out.readStates == n.out.readStates
  {
    d := CommitUpTo(Absorb(n, es), target, rnd);
  }

  lemma {:induction false} HintPositive(log: RaftLog, c: Index, t: Term)
    requires c > 0
    ensures ConflictHint(log, c, t) > 0
    decreases c
  {
    if c > log.FirstIndex() && log.TermOf(c - 1) == Some(t) { HintPositive(log, c - 1, t); }
  }

  lemma AppendAtReply(n: Node, from: NodeId, prev: Index, prevTerm: Term, es: seq<Entry>, lc: Index, ctx: nat, rnd: nat) returns (x: Message)
    requires n.role == Follower
    ensures Replied(n, AppendAt(n, from, prev, prevTerm, es, lc, ctx, rnd), ctx, x) && x.to == from
    ensures ctx > 0 && (prev == 0 ==> n.log.TermOf(0) == Some(prevTerm)) ==> Genuine(x)
  {
    var at := n.log.TermOf(prev);
    if at.None? {
      x := ReplySays(n, from, false, 0, n.log.LastIndex() + 1, ctx);
    } else if at.value != prevTerm {
      x := ReplySays(n, from, false, 0, ConflictHint(n.log, prev, at.value), ctx);
      if prev > 0 { HintPositive(n.log, prev, at.value); }
    } else {
      var d := AbsorbQuiet(n, es, Min(lc, prev + |es|), rnd);
      x := ReplySays(d, from, true, prev + |es|, 0, ctx);
      assert AppendAt(n, from, prev, prevTerm, es, lc, ctx, rnd) == Reply(d, from, true, prev + |es|, 0, ctx);
    }
  }

  /** The one reply to an append of the node's own term.  It is a confirmation whenever the append, as every leader
      sends it, names term 0 for index 0. */
  lemma AppendReply(c: Node, from: NodeId, prev: Index, prevTerm: Term, es: seq<Entry>, lc: Index, ctx: nat, rnd: nat) returns (x: Message)
    ensures Replied(c, HandleAppend(c, from, prev, prevTerm, es, lc, ctx, rnd), ctx, x) && x.to == from
    ensures ctx > 0 && (prev == 0 ==> prevTerm == 0) && (c.log.snapIndex == 0 ==> c.log.snapTerm == 0) ==> Genuine(x)
  {
    var h, snap := Heard(c, from), c.log.snapIndex;
    if prev >= snap {
      x := AppendAtReply(h, from, prev, prevTerm, es, lc, ctx, rnd);
    } else if snap - prev >= |es| {
      x := ReplySays(h, from, true, snap, 0, ctx);
    } else {
      x := AppendAtReply(h, from, snap, c.log.snapTerm, es[snap - prev..], lc, ctx, rnd);
    }
  }

  predicate AnswersTo(n: Node, m: Message, x: Message) {
    x.from == n.cfg.id && x.to == m.from && x.body.AppendEntriesResp? && m.body.AppendEntries? && x.body.readCtx == m.body.readCtx
  }

  lemma FreshAnswer(n: Node, m: Message, rnd: nat) returns (x: Message)
    requires Still(n) && m.body.AppendEntries? && m.body.readCtx > 0 && n.hs.term <= m.term
    requires (m.body.prevLogIndex == 0 ==> m.body.prevLogTerm == 0) && (n.log.snapIndex == 0 ==> n.log.snapTerm == 0)
    ensures RaftCore.Step(n, m, rnd).out.messages == [x] && Genuine(x) && x.term == m.term && AnswersTo(n, m, x)
  {
    x := AppendReply(CatchUp(n, m, rnd), m.from, m.body.prevLogIndex, m.body.prevLogTerm, m.body.entries,
                     m.body.leaderCommit, m.body.readCtx, rnd);
  }

  /** Which appends get a stale echo: exactly those that reach a node already in a later term.  Any other append is
      answered in its own term, by a confirmation that carries its own round. */
  lemma EchoesExactly(n: Node, m: Message, rnd: nat) returns (x: Message)
    requires Still(n) && m.body.AppendEntries? && m.body.readCtx > 0
    requires (m.body.prevLogIndex == 0 ==> m.body.prevLogTerm == 0) && (n.log.snapIndex == 0 ==> n.log.snapTerm == 0)
    ensures RaftCore.Step(n, m, rnd).out.messages == [x] && AnswersTo(n, m, x) && x.term == Max(m.term, n.hs.term)
    ensures StaleEcho(x) <==> m.term < n.hs.term
    ensures Genuine(x) <==> n.hs.term <= m.term
  {
    if m.term < n.hs.term {
      x := Message(n.cfg.id, m.from, n.hs.term, AppendEntriesResp(false, 0, 0, m.body.readCtx));
    } else {
      x := FreshAnswer(n, m, rnd);
    }
  }

  /** Who believes a stale echo: exactly a leader of the echo's own term.  Nothing else about the node changes then, and
      no message tells anyone. */
  lemma EchoCredited(n: Node, m: Message, rnd: nat)
    requires StaleEcho(m) && m.body.readCtx > Acked(n, m.from) && (n.role == Leader ==> m.from in n.prs)
    ensures Acked(RaftCore.Step(n, m, rnd), m.from) >= m.body.readCtx <==> n.role == Leader && n.hs.term == m.term
    ensures n.role == Leader && n.hs.term == m.term ==>
            RaftCore.Step(n, m, rnd) == WithProgress(n, m.from, n.prs[m.from].(ackedReadCtx := m.body.readCtx))
  {}

  lemma AppendOutcome(n: Node, ev: Event, c: Node, m: Message, rnd: nat)
    requires Still(c) && c.cfg == n.cfg && m.body.AppendEntries? && ev.Deliver? && ev.msg == m && c.hs.term == m.term
    ensures Outcome(n, ev, Dispatch(c, m, rnd))
  {
    var x := AppendReply(c, m.from, m.body.prevLogIndex, m.body.prevLogTerm, m.body.entries, m.body.leaderCommit, m.body.readCtx, rnd);
  }

  lemma SnapshotOutcome(n: Node, ev: Event, c: Node, m: Message, rnd: nat)
    requires Still(c) && c.cfg == n.cfg && m.body.InstallSnapshot?
    ensures Outcome(n, ev, Dispatch(c, m, rnd))
  {
    FollowerOutcome(n, ev, HandleSnapshot(c, m.from, m.body.snapshot, rnd));
  }

  lemma SnapshotRespOutcome(n: Node, ev: Event, from: NodeId, li: Index, rnd: nat)
    requires Still(n)
    ensures Outcome(n, ev, HandleSnapshotResp(n, from, li, rnd))
  {
    if n.role == Leader && from in n.prs {
      var pr := n.prs[from];
      var pr2 := pr.(pendingSnapshot := false, matched := Max(pr.matched, li), next := Max(pr.next, li + 1), inflight := 0);
      var n1 := WithProgress(n, from, pr2);
      MaybeAdvanceMild(n1, rnd);
      MildThenSend(n1, MaybeAdvance(n1, rnd), from);
      CalmOutcome(n, ev, n1, SendAppend(MaybeAdvance(n1, rnd), from));
    } else {
      assert Calm(n, n);
      CalmOutcome(n, ev, n, n);
    }
  }

  lemma MildThenSend(n: Node, m: Node, peer: NodeId)
    requires Mild(n, m) && Placed(m)
    ensures Mild(n, SendAppend(m, peer))
  {
    SendAppendCalm(m, peer);
    if Calm(n, m) { CalmTransitive(n, m, SendAppend(m, peer)); }
  }

  // ------------------------------------------------------------- replies to the leader

  /** The leader after a reply, before it sends anything: confirmations at most those the reply brings. */
  ghost predicate Heeded(n: Node, ev: Event, m: Node) {
    && m.role == Leader && m.cfg == n.cfg && m.hs.term == n.hs.term && m.readCtx == n.readCtx && m.out.messages == []
    && (forall v :: Acked(m, v) <= Max(Acked(n, v), CreditOf(ev, n.hs.term, v)))
    && (forall p :: p in m.pendingReads ==> p in n.pendingReads)
    && (forall rs :: rs in m.out.readStates ==> ReleasedRight(n, ev, rs))
  }

  lemma HeededThenSend(n: Node, ev: Event, m: Node, d: Node)
    requires n.role == Leader && Heeded(n, ev, m) && Calm(m, d)
    ensures Outcome(n, ev, d)
  {
    forall v ensures Acked(d, v) <= Max(Acked(n, v), CreditOf(ev, d.hs.term, v)) { assert Acked(d, v) <= Acked(m, v); }
  }

  lemma CreditedBy(n: Node, ev: Event, from: NodeId, pr: Progress, ctx: nat)
    requires from in n.prs && pr.ackedReadCtx == Max(n.prs[from].ackedReadCtx, ctx) && CreditOf(ev, n.hs.term, from) == ctx
    ensures forall v :: Acked(WithProgress(n, from, pr), v) <= Max(Acked(n, v), CreditOf(ev, n.hs.term, v))
  {}

  lemma ReplicatedHeeded(n: Node, ev: Event, from: NodeId, pr: Progress, ctx: nat, rnd: nat)
    requires Still(n) && n.role == Leader && from in n.prs && Distinct(Voters(n))
    requires pr.ackedReadCtx == Max(n.prs[from].ackedReadCtx, ctx) && CreditOf(ev, n.hs.term, from) == ctx
    ensures Heeded(n, ev, Replicated(n, from, pr, rnd)) || Down(n, Replicated(n, from, pr, rnd))
  {
    var n1 := WithProgress(n, from, pr);
    CreditedBy(n, ev, from, pr, ctx);
    MaybeAdvanceMild(n1, rnd);
    var n2 := MaybeAdvance(n1, rnd);
    MaybeAdvanceLog(n1, rnd);
    if Down(n1, n2) {
      assert ProcessReadAcks(n2) == n2;
    } else {
      forall v ensures Acked(n2, v) <= Max(Acked(n, v), CreditOf(ev, n.hs.term, v)) { assert Acked(n2, v) <= Acked(n1, v); }
      ProcessHeeded(n, ev, n2);
    }
  }

  lemma MaybeAdvanceLog(n: Node, rnd: nat)
    ensures Voters(MaybeAdvance(n, rnd)) == Voters(n)
    ensures n.role == Leader && MaybeAdvance(n, rnd).role == Leader ==> MaybeAdvance(n, rnd).out.messages == n.out.messages
  {}

  lemma ProcessHeeded(n: Node, ev: Event, m: Node)
    requires Distinct(Voters(n)) && Voters(m) == Voters(n) && n.role == Leader && m.role == Leader && m.cfg == n.cfg
    requires m.hs.term == n.hs.term && m.readCtx == n.readCtx && m.pendingReads == n.pendingReads && Still(m)
    requires forall v :: Acked(m, v) <= Max(Acked(n, v), CreditOf(ev, n.hs.term, v))
    ensures Heeded(n, ev, ProcessReadAcks(m))
  {
    var d := ProcessReadAcks(m);
    forall rs | rs in d.out.readStates ensures ReleasedRight(n, ev, rs) { ProcessReleases(n, ev, m, rs); }
    var sorted := SortDesc(ReadAcks(m, Voters(m)));
    if m.pendingReads != [] && |sorted| >= QuorumSize(m) { WaitingIn(m.pendingReads, sorted[QuorumSize(m) - 1]); }
    assert d.prs == m.prs;
  }

  lemma AppendRespOutcome(n: Node, ev: Event, m: Message, rnd: nat)
    requires Still(n) && ev.Deliver? && ev.msg == m && m.body.AppendEntriesResp? && m.term == n.hs.term && Distinct(Voters(n))
    ensures Outcome(n, ev, HandleAppendResp(n, m.from, m.body.success, m.body.matchIndex, m.body.conflictIndex, m.body.readCtx, rnd))
  {
    if n.role != Leader || m.from !in n.prs {
      assert Calm(n, n);
      CalmOutcome(n, ev, n, n);
    } else {
      var last, pr := n.log.LastIndex(), Credited(n.prs[m.from], m.body.readCtx);
      if m.body.success {
        var pr2 := Advanced(pr, m.body.matchIndex);
        ReplicatedHeeded(n, ev, m.from, pr2, m.body.readCtx, rnd);
        AfterReplicated(n, ev, Replicated(n, m.from, pr2, rnd), m.from, last);
      } else {
        var pr2 := if m.body.conflictIndex > 0 then pr.(next := Min(Max(m.body.conflictIndex, 1), last + 1), inflight := 0) else pr;
        var n1 := WithProgress(n, m.from, pr2);
        CreditedBy(n, ev, m.from, pr2, m.body.readCtx);
        SendAppendCalm(n1, m.from);
        assert Calm(n1, n1);
        HeededThenSend(n, ev, n1, if m.body.conflictIndex > 0 then SendAppend(n1, m.from) else n1);
      }
    }
  }

  lemma AfterReplicated(n: Node, ev: Event, m: Node, from: NodeId, last: Index)
    requires Still(n) && n.role == Leader && (Heeded(n, ev, m) || Down(n, m))
    ensures Outcome(n, ev, KeepSending(m, from, last))
  {
    if Heeded(n, ev, m) {
      SendAppendCalm(m, from);
      assert Calm(m, m);
      HeededThenSend(n, ev, m, KeepSending(m, from, last));
    }
  }

  // ------------------------------------------------------------- any event

  lemma StepOutcome(n: Node, id: NodeId, m: Message, rnd: nat)
    requires Still(n) && Distinct(Voters(n))
    ensures Outcome(n, Deliver(id, m, rnd), RaftCore.Step(n, m, rnd))
  {
    var ev := Deliver(id, m, rnd);
    if m.body.PreVote? {
      CalmOutcomeOne(n, ev, HandlePreVote(n, m));
    } else if m.body.PreVoteResp? {
      PreVoteRespOutcome(n, ev, m, rnd);
    } else if m.term < n.hs.term {
      CalmOutcomeOne(n, ev, AnswerStale(n, m));
    } else {
      var c := CatchUp(n, m, rnd);
      assert c == n || (c.role == Follower && Still(c) && c.cfg == n.cfg);
      match m.body
      case RequestVote(_, _) => VoteOutcome(n, ev, c, m, rnd);
      case RequestVoteResp(_) => VoteOutcome(n, ev, c, m, rnd);
      case AppendEntries(_, _, _, _, _) => AppendOutcome(n, ev, c, m, rnd);
      case InstallSnapshot(_) => SnapshotOutcome(n, ev, c, m, rnd);
      case AppendEntriesResp(_, _, _, _) =>
        if c == n { AppendRespOutcome(n, ev, m, rnd); } else { FollowerOutcome(n, ev, c); }
      case InstallSnapshotResp(li) =>
        if c == n { SnapshotRespOutcome(n, ev, m.from, li, rnd); } else { FollowerOutcome(n, ev, c); }
    }
  }

  lemma PreVoteRespOutcome(n: Node, ev: Event, m: Message, rnd: nat)
    requires Still(n) && m.body.PreVoteResp?
    ensures Outcome(n, ev, HandlePreVoteResp(n, m, rnd))
  {
    if m.body.granted && n.role == PreCandidate && m.term == n.hs.term + 1 {
      var n2 := n.(votes := n.votes[m.from := true]);
      if HasQuorum(n2) { CampaignOutcome(n, ev, n2, rnd); } else { FollowerOutcome(n, ev, n2); }
    } else if !m.body.granted && m.term > n.hs.term {
      FollowerOutcome(n, ev, BecomeFollower(n, m.term, None, rnd));
    } else {
      assert Calm(n, n);
      CalmOutcome(n, ev, n, n);
    }
  }

  lemma ReactOutcome(n: Node, ev: Event)
    requires Still(n) && Distinct(Voters(n)) && n.cfg.id in Voters(n) && !ev.Crash? && !ev.Restart?
    ensures Outcome(n, ev, React(n, ev))
  {
    match ev
    case Ticks(id, rnd) => TickOutcome(n, id, rnd);
    case Deliver(id, m, rnd) => StepOutcome(n, id, m, rnd);
    case ClientWrite(id, cmd, rnd) => ProposeOutcome(n, id, cmd, rnd);
    case ClientRead(id, rid) => ReadIndexOutcome(n, id, rid);
  }
}
