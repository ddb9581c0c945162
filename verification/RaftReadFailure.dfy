/** ReadIndex is not safe as it stands: a concrete run that releases a read behind a commit.

    Node 1 leads term 1 and opens a read round; the append that carries it is delayed.  Node 1 restarts, node 2
    misses it for ten ticks, and node 1 leads term 2, where its rounds start over.  Node 2, now in term 2, answers
    the delayed append with the new term and the old round number, and node 1 takes that for a confirmation of a
    round it has not begun yet (crates/raft/src/node.rs:612-627, 872-887).  Nodes 2 and 3 elect node 2 for term 3
    and commit index 3.  Node 1 then registers a read at index 2 and releases it on a repeated acknowledgement of
    term 2.  The configuration is the default one, pre-vote included, and every timeout is one it can draw. */
module RaftReadFailure {
  import opened Prelude
  import opened RaftTypes
  import opened RaftLogs
  import opened RaftCore
  import opened RaftHost
  import opened RaftCoupling
  import opened RaftTheorems
  import opened RaftReads
  import opened RaftReadSafety
  import Kvsm

  const THREE: seq<NodeId> := [1, 2, 3]
  const E1: Entry := Entry(1, 1, Noop)
  const E2: Entry := Entry(2, 2, Noop)
  const E3: Entry := Entry(3, 3, Noop)

  /** The default configuration (crates/raft/src/types.rs:180-192), pre-vote included. */
  function Cfg(id: NodeId): Config { Config(id, 10, 2, 64, 10, true) }

  /** Every timeout of the run is drawn as 11, one of the values 10 to 19 the defaults allow. */
  const DRAW: nat := 11

  function Member(id: NodeId, es: seq<Entry>, hs: HardState, role: Role, leader: Option<NodeId>, commit: Index, elapsed: nat, ticks: nat,
                  votes: map<NodeId, bool>, prs: map<NodeId, Progress>, round: nat, pending: seq<PendingRead>): Node {
    Node(Cfg(id), RaftLog(0, 0, es), hs, role, leader, commit, None, THREE, elapsed, DRAW, 0, ticks, votes, prs, round, pending, NO_OUTPUT)
  }

  function Follow(id: NodeId, es: seq<Entry>, term: Term, vote: Option<NodeId>, leader: Option<NodeId>, elapsed: nat, ticks: nat): Node {
    Member(id, es, HardState(term, vote), Follower, leader, 0, elapsed, ticks, map[], map[], 0, [])
  }

  /** How often node 1 or 2 has ticked whenever it stands for election in this run. */
  function TicksOf(id: NodeId): nat { if id == 1 then DRAW else 10 + DRAW }

  function Probing(id: NodeId, es: seq<Entry>, term: Term, vote: Option<NodeId>, leader: Option<NodeId>): Node {
    Member(id, es, HardState(term, vote), PreCandidate, leader, 0, 0, TicksOf(id), map[id := true], map[], 0, [])
  }

  function Runs(id: NodeId, es: seq<Entry>, term: Term): Node {
    Member(id, es, HardState(term, Some(id)), Candidate, None, 0, 0, TicksOf(id), map[id := true], map[], 0, [])
  }

  function Pr(next: Index, matched: Index, inflight: nat, acked: nat): Progress { Progress(next, matched, inflight, false, 0, acked) }

  function Leads(id: NodeId, es: seq<Entry>, term: Term, voter: NodeId, commit: Index, p: NodeId, pp: Progress, q: NodeId, pq: Progress,
                 round: nat, pending: seq<PendingRead>): Node {
    Member(id, es, HardState(term, Some(id)), Leader, Some(id), commit, 0, TicksOf(id), map[id := true, voter := true], map[p := pp, q := pq], round, pending)
  }

  // ------------------------------------------------------------- three voters, unrolled

  ghost predicate NoConf(es: seq<Entry>) { forall i :: 0 <= i < |es| ==> !es[i].payload.Conf? }

  lemma AllVote(n: Node)
    requires n.votersBase == THREE && NoConf(n.log.entries)
    ensures Voters(n) == THREE && QuorumSize(n) == 2
  {
    PlainVoters(n.votersBase, n.log.entries, n.log.LastIndex());
  }

  /** The two others, as node 1 or 2 sees them. */
  ghost predicate Sees(id: NodeId, p: NodeId, q: NodeId) { (id == 1 && p == 2 && q == 3) || (id == 2 && p == 1 && q == 3) }

  lemma SendAppends3(n: Node, p: NodeId, q: NodeId)
    requires p < q && n.prs.Keys == {p, q}
    ensures SendAppends(n, Ascending(n.prs.Keys)) == SendAppend(SendAppend(n, p), q)
  {
    assert Least({p, q}) == p && {p, q} - {p} == {q} && Least({q}) == q && {q} - {q} == {};
    assert Ascending({q}) == [q] && Ascending({p, q}) == [p] + [q];
    assert [p, q][1..] == [q] && [q][1..] == [];
    var a := SendAppend(n, p);
    assert SendAppends(a, [q]) == SendAppend(a, q);
  }

  lemma SendEach3(n: Node, p: NodeId, q: NodeId, term: Term, body: Body)
    requires Sees(n.cfg.id, p, q)
    ensures SendEach(n, THREE, term, body) == Send(Send(n, p, term, body), q, term, body)
  {
    assert THREE[1..] == [2, 3] && [2, 3][1..] == [3] && [3][1..] == [];
    var a := if n.cfg.id == 1 then n else Send(n, 1, term, body);
    var b := if n.cfg.id == 2 then a else Send(a, 2, term, body);
    assert SendEach(b, [3], term, body) == Send(b, 3, term, body);
    assert SendEach(a, [2, 3], term, body) == SendEach(b, [3], term, body);
  }

  function Mid(a: nat, b: nat, c: nat): nat { Max(Min(a, b), Min(Max(a, b), c)) }

  lemma Sort3(s: seq<nat>)
    requires |s| == 3
    ensures |SortDesc(s)| == 3 && SortDesc(s)[1] == Mid(s[0], s[1], s[2])
  {
    var a, b, c := s[0], s[1], s[2];
    assert s[1..] == [b, c] && [b, c][1..] == [c] && [c][1..] == [] && [c, b][1..] == [b];
    assert SortDesc([c]) == InsertDesc(c, []) == [c];
    assert InsertDesc(b, []) == [b] && InsertDesc(a, []) == [a];
    var two := if b >= c then [b, c] else [c, b];
    assert SortDesc([b, c]) == InsertDesc(b, [c]) == two;
    assert InsertDesc(a, two[1..]) == if a >= two[1] then [a, two[1]] else [two[1], a] by { assert two[1..] == [two[1]] && [two[1]][1..] == []; }
    assert SortDesc(s) == InsertDesc(a, two);
  }

  /** The event takes the node from `n` to `m` and sends at least `x`. */
  ghost predicate Goes(n: Node, ev: Event, m: Node, x: Message) {
    React(n, ev).(out := NO_OUTPUT) == m && x in React(n, ev).out.messages
  }

  /** A tick that does not reach the timeout. */
  lemma Waits(id: NodeId, es: seq<Entry>, t: Term, vote: Option<NodeId>, leader: Option<NodeId>, elapsed: nat, ticks: nat)
    requires elapsed + 1 < DRAW
    ensures React(Follow(id, es, t, vote, leader, elapsed, ticks), Ticks(id, DRAW)) == Follow(id, es, t, vote, leader, elapsed + 1, ticks + 1)
  {}

  /** The tick that reaches it: the follower asks the two others whether they would vote for it. */
  lemma Probes(id: NodeId, p: NodeId, q: NodeId, es: seq<Entry>, t: Term, vote: Option<NodeId>, leader: Option<NodeId>)
    requires Sees(id, p, q) && NoConf(es)
    ensures Goes(Follow(id, es, t, vote, leader, 10, TicksOf(id) - 1), Ticks(id, DRAW), Probing(id, es, t, vote, leader),
                 Message(id, if id == 1 then p else q, t + 1, PreVote(|es|, RaftLog(0, 0, es).LastTerm())))
  {
    var n, m := Follow(id, es, t, vote, leader, 0, TicksOf(id)), Probing(id, es, t, vote, leader);
    TimerFires(id, es, t, vote, leader);
    assert AsPreCandidate(n) == m;
    AllVote(m);
    assert Granted(m) == {id};
    SendEach3(m, p, q, t + 1, PreVote(|es|, m.log.LastTerm()));
  }

  lemma TimerFires(id: NodeId, es: seq<Entry>, t: Term, vote: Option<NodeId>, leader: Option<NodeId>)
    requires id in THREE && NoConf(es)
    ensures React(Follow(id, es, t, vote, leader, 10, TicksOf(id) - 1), Ticks(id, DRAW)) ==
            CampaignPre(Follow(id, es, t, vote, leader, 0, TicksOf(id)), DRAW)
  {
    AllVote(Follow(id, es, t, vote, leader, 10, TicksOf(id)));
    assert ResetTimer(Follow(id, es, t, vote, leader, 10, TicksOf(id)), DRAW) == Follow(id, es, t, vote, leader, 0, TicksOf(id));
  }

  /** A node that has not heard from a leader for ten ticks, or knows none, would vote for a newer term and a good log. */
  lemma PreGrants(id: NodeId, es: seq<Entry>, t0: Term, vote: Option<NodeId>, leader: Option<NodeId>, elapsed: nat, ticks: nat,
                  c: NodeId, t: Term, lli: Index, llt: Term)
    requires t0 < t && LogUpToDate(Follow(id, es, t0, vote, leader, elapsed, ticks), lli, llt) && (leader.None? || elapsed >= 10)
    ensures Goes(Follow(id, es, t0, vote, leader, elapsed, ticks), Deliver(id, Message(c, id, t, PreVote(lli, llt)), DRAW),
                 Follow(id, es, t0, vote, leader, elapsed, ticks), Message(id, c, t, PreVoteResp(true)))
  {}

  /** One such answer is enough: the node stands for election. */
  lemma Campaigns(id: NodeId, p: NodeId, q: NodeId, es: seq<Entry>, t: Term, vote: Option<NodeId>, leader: Option<NodeId>, v: NodeId)
    requires Sees(id, p, q) && NoConf(es) && (v == p || v == q)
    ensures Goes(Probing(id, es, t, vote, leader), Deliver(id, Message(v, id, t + 1, PreVoteResp(true)), DRAW), Runs(id, es, t + 1),
                 Message(id, v, t + 1, RequestVote(|es|, RaftLog(0, 0, es).LastTerm())))
  {
    var n2 := PreVoteCounted(id, es, t, vote, leader, v);
    var c := CampaignAsks(id, p, q, es, t, n2);
  }

  lemma PreVoteCounted(id: NodeId, es: seq<Entry>, t: Term, vote: Option<NodeId>, leader: Option<NodeId>, v: NodeId) returns (n2: Node)
    requires id in THREE && v in THREE && id != v && NoConf(es)
    ensures n2 == Probing(id, es, t, vote, leader).(votes := map[id := true, v := true])
    ensures React(Probing(id, es, t, vote, leader), Deliver(id, Message(v, id, t + 1, PreVoteResp(true)), DRAW)) == Campaign(n2, DRAW)
  {
    var n := Probing(id, es, t, vote, leader);
    n2 := n.(votes := n.votes[v := true]);
    TwoVotes(n2, id, v);
    PreVoteDecides(n, v, n2);
  }

  lemma TwoVotes(n: Node, id: NodeId, v: NodeId)
    requires n.votersBase == THREE && NoConf(n.log.entries) && n.votes == map[id := true, v := true] && id in THREE && v in THREE && id != v
    ensures HasQuorum(n)
  {
    AllVote(n);
    assert Granted(n) == {id, v};
  }

  lemma PreVoteDecides(n: Node, v: NodeId, n2: Node)
    requires n.role == PreCandidate && n2 == n.(votes := n.votes[v := true]) && HasQuorum(n2)
    ensures React(n, Deliver(n.cfg.id, Message(v, n.cfg.id, n.hs.term + 1, PreVoteResp(true)), DRAW)) == Campaign(n2, DRAW)
  {}

  lemma CampaignAsks(id: NodeId, p: NodeId, q: NodeId, es: seq<Entry>, t: Term, n: Node) returns (c: Node)
    requires Sees(id, p, q) && NoConf(es) && n.hs.term == t && n.out == NO_OUTPUT
    requires n == Runs(id, es, t + 1).(hs := n.hs, role := n.role, leaderId := n.leaderId, votes := n.votes)
    ensures var rv := RequestVote(|es|, RaftLog(0, 0, es).LastTerm());
            && c == Campaign(n, DRAW) && c.(out := NO_OUTPUT) == Runs(id, es, t + 1)
            && Message(id, p, t + 1, rv) in c.out.messages && Message(id, q, t + 1, rv) in c.out.messages
  {
    var hs := HardState(t + 1, Some(id));
    var n1 := Runs(id, es, t + 1).(out := NO_OUTPUT.(hardState := Some(hs)));
    assert AsCandidate(n) == n1;
    AllVote(n1);
    assert Granted(n1) == {id};
    SendEach3(n1, p, q, t + 1, RequestVote(|es|, n1.log.LastTerm()));
    c := Campaign(n, DRAW);
  }

  /** A node of an older term grants its vote to a candidate whose log is as good as its own. */
  lemma Grants(id: NodeId, es: seq<Entry>, t0: Term, vote: Option<NodeId>, leader: Option<NodeId>, elapsed: nat, ticks: nat,
               c: NodeId, t: Term, lli: Index, llt: Term)
    requires t0 < t && LogUpToDate(Follow(id, es, t0, vote, leader, elapsed, ticks), lli, llt)
    ensures Goes(Follow(id, es, t0, vote, leader, elapsed, ticks), Deliver(id, Message(c, id, t, RequestVote(lli, llt)), DRAW),
                 Follow(id, es, t, Some(c), None, 0, ticks), Message(id, c, t, RequestVoteResp(true)))
  {}

  /** The deciding vote: the winner appends a no-op and sends it to both others. */
  lemma Wins(id: NodeId, p: NodeId, q: NodeId, es: seq<Entry>, t: Term, v: NodeId)
    requires Sees(id, p, q) && (v == p || v == q) && t > 0 && |es| < 9 && NoConf(es) && forall i :: 0 <= i < |es| ==> es[i].term != t
    ensures var e, pr := Entry(t, |es| + 1, Noop), Pr(|es| + 2, 0, 1, 0);
            var ae := AppendEntries(|es|, RaftLog(0, 0, es).LastTerm(), [e], 0, 0);
            var ev, l := Deliver(id, Message(v, id, t, RequestVoteResp(true)), DRAW), Leads(id, es + [e], t, v, 0, p, pr, q, pr, 0, []);
            Goes(Runs(id, es, t), ev, l, Message(id, p, t, ae)) && Goes(Runs(id, es, t), ev, l, Message(id, q, t, ae))
  {
    VoteDecides(id, p, q, es, t, v);
    var b := WinnerLeads(id, p, q, es, t, v);
  }

  lemma VoteDecides(id: NodeId, p: NodeId, q: NodeId, es: seq<Entry>, t: Term, v: NodeId)
    requires Sees(id, p, q) && (v == p || v == q) && NoConf(es)
    ensures React(Runs(id, es, t), Deliver(id, Message(v, id, t, RequestVoteResp(true)), DRAW)) ==
            BecomeLeader(Runs(id, es, t).(votes := map[id := true, v := true]), DRAW)
  {
    var n, c := Runs(id, es, t), Runs(id, es, t).(votes := map[id := true, v := true]);
    TwoVotes(c, id, v);
    assert n.votes[v := true] == c.votes;
    VoteWins(n, v, c);
  }

  lemma VoteWins(n: Node, v: NodeId, c: Node)
    requires n.role == Candidate && c == n.(votes := n.votes[v := true]) && HasQuorum(c)
    ensures React(n, Deliver(n.cfg.id, Message(v, n.cfg.id, n.hs.term, RequestVoteResp(true)), DRAW)) == BecomeLeader(c, DRAW)
  {}

  lemma WinnerLeads(id: NodeId, p: NodeId, q: NodeId, es: seq<Entry>, t: Term, v: NodeId) returns (b: Node)
    requires Sees(id, p, q) && (v == p || v == q) && t > 0 && |es| < 9 && NoConf(es) && forall i :: 0 <= i < |es| ==> es[i].term != t
    ensures b == BecomeLeader(Runs(id, es, t).(votes := map[id := true, v := true]), DRAW)
    ensures var e, pr := Entry(t, |es| + 1, Noop), Pr(|es| + 2, 0, 1, 0);
            var ae := AppendEntries(|es|, RaftLog(0, 0, es).LastTerm(), [e], 0, 0);
            && b.(out := NO_OUTPUT) == Leads(id, es + [e], t, v, 0, p, pr, q, pr, 0, [])
            && Message(id, p, t, ae) in b.out.messages && Message(id, q, t, ae) in b.out.messages
  {
    var a := WinnerPushes(id, p, q, es, t, v);
    var a1 := FirstBroadcast(id, p, q, es, t, v, a);
    var pr := Pr(|es| + 2, 0, 1, 0);
    IdleBroadcast(id, p, q, es + [Entry(t, |es| + 1, Noop)], t, v, 0, pr, pr, 0, [], a1);
    b := Broadcast(a1);
  }

  lemma WinnerPushes(id: NodeId, p: NodeId, q: NodeId, es: seq<Entry>, t: Term, v: NodeId) returns (a: Node)
    requires Sees(id, p, q) && (v == p || v == q) && t > 0 && |es| < 9 && NoConf(es) && forall i :: 0 <= i < |es| ==> es[i].term != t
    ensures var np := NewProgress(|es| + 1);
            a.(out := NO_OUTPUT) == Leads(id, es + [Entry(t, |es| + 1, Noop)], t, v, 0, p, np, q, np, 0, [])
    ensures BecomeLeader(Runs(id, es, t).(votes := map[id := true, v := true]), DRAW) == Broadcast(Broadcast(a))
  {
    var c, np := Runs(id, es, t).(votes := map[id := true, v := true]), NewProgress(|es| + 1);
    var l := WinnerTracks(id, p, q, es, t, v);
    a := Pushed(l, Noop);
    NothingCounted(id, p, q, es, t, v, a);
    LeadBroadcasts(c, l, a);
  }

  lemma WinnerTracks(id: NodeId, p: NodeId, q: NodeId, es: seq<Entry>, t: Term, v: NodeId) returns (l: Node)
    requires Sees(id, p, q) && NoConf(es)
    ensures var np := NewProgress(|es| + 1);
            l == AsLeader(Runs(id, es, t).(votes := map[id := true, v := true])) == Leads(id, es, t, v, 0, p, np, q, np, 0, [])
  {
    var c, np := Runs(id, es, t).(votes := map[id := true, v := true]), NewProgress(|es| + 1);
    AllVote(c);
    l := AsLeader(c);
    assert l.prs == map[p := np, q := np];
  }

  lemma NothingCounted(id: NodeId, p: NodeId, q: NodeId, es: seq<Entry>, t: Term, v: NodeId, a: Node)
    requires Sees(id, p, q) && t > 0 && NoConf(es)
    requires var np := NewProgress(|es| + 1);
             a.(out := NO_OUTPUT) == Leads(id, es + [Entry(t, |es| + 1, Noop)], t, v, 0, p, np, q, np, 0, [])
    ensures MaybeAdvance(a, DRAW) == a
  {
    AllVote(a);
    Sort3(Matches(a, THREE));
  }

  lemma LeadBroadcasts(c: Node, l: Node, a: Node)
    requires l == AsLeader(c) && a == Pushed(l, Noop) && MaybeAdvance(a, DRAW) == a
    ensures BecomeLeader(c, DRAW) == Broadcast(Broadcast(a))
  {}

  /** Both others get the new entry. */
  lemma FirstBroadcast(id: NodeId, p: NodeId, q: NodeId, es: seq<Entry>, t: Term, v: NodeId, a: Node) returns (b: Node)
    requires Sees(id, p, q) && |es| < 9 && NoConf(es)
    requires var np := NewProgress(|es| + 1);
             a.(out := NO_OUTPUT) == Leads(id, es + [Entry(t, |es| + 1, Noop)], t, v, 0, p, np, q, np, 0, [])
    ensures var ae, pr := AppendEntries(|es|, RaftLog(0, 0, es).LastTerm(), [Entry(t, |es| + 1, Noop)], 0, 0), Pr(|es| + 2, 0, 1, 0);
            && b == Broadcast(a) && b.(out := NO_OUTPUT) == Leads(id, es + [Entry(t, |es| + 1, Noop)], t, v, 0, p, pr, q, pr, 0, [])
            && Message(id, p, t, ae) in b.out.messages && Message(id, q, t, ae) in b.out.messages
  {
    b := Broadcast3(a, p, q);
    var b2 := FirstSends(a, p, q, es, t);
  }

  lemma FirstSends(a: Node, p: NodeId, q: NodeId, es: seq<Entry>, t: Term) returns (b: Node)
    requires |es| < 9 && a.cfg.maxBatch == 64 && a.cfg.maxInflight == 10 && a.commit == 0 && a.readCtx == 0 && a.hs.term == t && p != q
    requires a.log == RaftLog(0, 0, es + [Entry(t, |es| + 1, Noop)]) && a.prs == map[p := NewProgress(|es| + 1), q := NewProgress(|es| + 1)]
    ensures var ae, pr := AppendEntries(|es|, RaftLog(0, 0, es).LastTerm(), [Entry(t, |es| + 1, Noop)], 0, 0), Pr(|es| + 2, 0, 1, 0);
            && b == SendAppend(SendAppend(a, p), q) && b.(out := NO_OUTPUT) == a.(out := NO_OUTPUT, prs := map[p := pr, q := pr])
            && Message(a.cfg.id, p, t, ae) in b.out.messages && Message(a.cfg.id, q, t, ae) in b.out.messages
  {
    var a1 := FirstSend(a, p, es, t);
    b := FirstSend(a1, q, es, t);
    assert b.prs == map[p := Pr(|es| + 2, 0, 1, 0), q := Pr(|es| + 2, 0, 1, 0)];
  }

  lemma Broadcast3(a: Node, p: NodeId, q: NodeId) returns (b: Node)
    requires Sees(a.cfg.id, p, q) && a.votersBase == THREE && NoConf(a.log.entries) && a.prs.Keys == {p, q}
    ensures b == Broadcast(a) == SendAppend(SendAppend(a, p), q)
  {
    AllVote(a);
    Synced(a, p, q);
    SendAppends3(a, p, q);
    b := Broadcast(a);
  }

  lemma Synced(a: Node, p: NodeId, q: NodeId)
    requires Sees(a.cfg.id, p, q) && Voters(a) == THREE && a.prs.Keys == {p, q}
    ensures SyncProgress(a) == a
  {
    if a.role == Leader { assert SyncProgress(a).prs == a.prs; }
  }

  lemma FirstSend(a: Node, to: NodeId, es: seq<Entry>, t: Term) returns (b: Node)
    requires |es| < 9 && a.cfg.maxBatch == 64 && a.cfg.maxInflight == 10 && a.commit == 0 && a.readCtx == 0 && a.hs.term == t
    requires a.log == RaftLog(0, 0, es + [Entry(t, |es| + 1, Noop)]) && to in a.prs && a.prs[to] == NewProgress(|es| + 1)
    ensures b == SendAppend(a, to) ==
            Send(a.(prs := a.prs[to := Pr(|es| + 2, 0, 1, 0)]), to, t,
                 AppendEntries(|es|, RaftLog(0, 0, es).LastTerm(), [Entry(t, |es| + 1, Noop)], 0, 0))
  {
    assert a.log.Slice(|es| + 1, 64) == [Entry(t, |es| + 1, Noop)];
    assert a.log.TermOf(|es|) == Some(RaftLog(0, 0, es).LastTerm());
    b := SendAppend(a, to);
  }

  /** Nothing new to send: both others get a heartbeat with the present round. */
  lemma IdleBroadcast(id: NodeId, p: NodeId, q: NodeId, es: seq<Entry>, t: Term, v: NodeId, c: Index, pp: Progress, pq: Progress,
                      round: nat, pending: seq<PendingRead>, a: Node)
    requires Sees(id, p, q) && NoConf(es) && es != [] && !pp.pendingSnapshot && !pq.pendingSnapshot && pp.next == pq.next == |es| + 1
    requires a.(out := NO_OUTPUT) == Leads(id, es, t, v, c, p, pp, q, pq, round, pending)
    ensures Broadcast(a).(out := NO_OUTPUT) == a.(out := NO_OUTPUT) && forall x :: x in a.out.messages ==> x in Broadcast(a).out.messages
    ensures var ae := AppendEntries(|es|, es[|es| - 1].term, [], c, round);
            Message(id, p, t, ae) in Broadcast(a).out.messages && Message(id, q, t, ae) in Broadcast(a).out.messages
  {
    var b := Broadcast3(a, p, q);
    IdleSend(a, p, pp);
    IdleSend(SendAppend(a, p), q, pq);
  }

  lemma IdleSend(a: Node, to: NodeId, pr: Progress)
    requires to in a.prs && a.prs[to] == pr && !pr.pendingSnapshot && a.log.snapIndex == 0 && a.log.entries != []
    requires pr.next == |a.log.entries| + 1
    ensures SendAppend(a, to) == Send(a, to, a.hs.term, AppendEntries(|a.log.entries|, a.log.LastTerm(), [], a.commit, a.readCtx))
  {
    assert a.log.Slice(pr.next, a.cfg.maxBatch) == [];
    assert WithProgress(a, to, pr) == a by { assert a.prs[to := pr] == a.prs; }
  }

  // ------------------------------------------------------------- followers

  lemma Accepts(id: NodeId, es: seq<Entry>, t: Term, vote: Option<NodeId>, leader: Option<NodeId>, ticks: nat, from: NodeId, more: seq<Entry>)
    requires more != [] && NoConf(es) && forall i :: 0 <= i < |more| ==> more[i].index == |es| + 1 + i
    ensures Goes(Follow(id, es, t, vote, leader, 0, ticks),
                 Deliver(id, Message(from, id, t, AppendEntries(|es|, RaftLog(0, 0, es).LastTerm(), more, 0, 0)), DRAW),
                 Follow(id, es + more, t, vote, Some(from), 0, ticks),
                 Message(id, from, t, AppendEntriesResp(true, |es| + |more|, 0, 0)))
  {
    var n := Heard(Follow(id, es, t, vote, leader, 0, ticks), from);
    assert n.log.TermOf(|es|) == Some(n.log.LastTerm());
    assert FirstNew(n.log, more) == 0;
    assert more[0..] == more;
    assert Absorb(n, more) == n.(log := RaftLog(0, 0, es + more), out := NO_OUTPUT.(append := [] + more));
  }

  lemma Rejects()
    ensures Goes(Follow(3, [], 3, Some(2), None, 0, 0), Deliver(3, Message(2, 3, 3, AppendEntries(2, 2, [E3], 0, 0)), DRAW),
                 Follow(3, [], 3, Some(2), Some(2), 0, 0), Message(3, 2, 3, AppendEntriesResp(false, 0, 1, 0)))
  {}

  /** The answer to the delayed append of term 1: the new term with the old round. */
  lemma AnswersLate()
    ensures Goes(Follow(2, [E1], 2, Some(1), None, 0, 10), Deliver(2, Message(1, 2, 1, AppendEntries(1, 1, [], 1, 1)), DRAW),
                 Follow(2, [E1], 2, Some(1), None, 0, 10), Message(2, 1, 2, AppendEntriesResp(false, 0, 0, 1)))
  {}

  // ------------------------------------------------------------- leaders

  /** The leader takes the late answer for a confirmation of round 1. */
  lemma CreditsLate()
    ensures React(Leads(1, [E1, E2], 2, 2, 0, 2, Pr(3, 0, 1, 0), 3, Pr(3, 0, 1, 0), 0, []),
                  Deliver(1, Message(2, 1, 2, AppendEntriesResp(false, 0, 0, 1)), DRAW)) ==
            Leads(1, [E1, E2], 2, 2, 0, 2, Pr(3, 0, 1, 1), 3, Pr(3, 0, 1, 0), 0, [])
  {
    var n := Leads(1, [E1, E2], 2, 2, 0, 2, Pr(3, 0, 1, 0), 3, Pr(3, 0, 1, 0), 0, []);
    assert n.prs[2 := Pr(3, 0, 1, 1)] == map[2 := Pr(3, 0, 1, 1), 3 := Pr(3, 0, 1, 0)];
  }

  lemma Repairs()
    ensures Goes(Leads(2, [E1, E2, E3], 3, 3, 0, 1, Pr(4, 0, 1, 0), 3, Pr(4, 0, 1, 0), 0, []),
                 Deliver(2, Message(3, 2, 3, AppendEntriesResp(false, 0, 1, 0)), DRAW),
                 Leads(2, [E1, E2, E3], 3, 3, 0, 1, Pr(4, 0, 1, 0), 3, Pr(4, 0, 1, 0), 0, []),
                 Message(2, 3, 3, AppendEntries(0, 0, [E1, E2, E3], 0, 0)))
  {
    var n := Leads(2, [E1, E2, E3], 3, 3, 0, 1, Pr(4, 0, 1, 0), 3, Pr(4, 0, 1, 0), 0, []);
    var n1 := WithProgress(n, 3, Pr(1, 0, 0, 0));
    assert n1.log.Slice(1, 64) == [E1, E2, E3];
    assert n1.prs[3 := Pr(4, 0, 1, 0)] == n.prs;
  }

  /** An acknowledgement of the whole log by one of the others commits it. */
  lemma Commits(id: NodeId, p: NodeId, q: NodeId, es: seq<Entry>, t: Term, v: NodeId, from: NodeId, pr: Progress, other: Progress)
    requires Sees(id, p, q) && (from == p || from == q) && NoConf(es) && es != [] && es[|es| - 1].term == t
    requires pr == Pr(|es| + 1, 0, 1, pr.ackedReadCtx) && other.matched == 0
    ensures var pp, pq := if from == p then pr else other, if from == q then pr else other;
            var acked := Pr(|es| + 1, |es|, 0, pr.ackedReadCtx);
            React(Leads(id, es, t, v, 0, p, pp, q, pq, 0, []), Deliver(id, Message(from, id, t, AppendEntriesResp(true, |es|, 0, 0)), DRAW))
              .(out := NO_OUTPUT) ==
            Leads(id, es, t, v, |es|, p, if from == p then acked else other, q, if from == q then acked else other, 0, [])
  {
    var pp, pq := if from == p then pr else other, if from == q then pr else other;
    var n, acked := Leads(id, es, t, v, 0, p, pp, q, pq, 0, []), Pr(|es| + 1, |es|, 0, pr.ackedReadCtx);
    assert Advanced(Credited(pr, 0), |es|) == acked;
    var n1 := WithProgress(n, from, acked);
    assert n1.prs == map[p := if from == p then acked else other, q := if from == q then acked else other];
    var n2 := CommitsAll(n1);
    AckIs(n, from, |es|, acked, n2);
  }

  /** Two of three hold the whole log, which ends in the leader's own term. */
  lemma CommitsAll(n: Node) returns (m: Node)
    requires n.role == Leader && n.votersBase == THREE && NoConf(n.log.entries) && n.cfg.id in THREE && n.commit == 0 && n.log.snapIndex == 0
    requires n.log.entries != [] && n.log.LastTerm() == n.hs.term && n.pendingReads == []
    requires Mid(MatchOf(n, 1), MatchOf(n, 2), MatchOf(n, 3)) == |n.log.entries|
    ensures m == ProcessReadAcks(MaybeAdvance(n, DRAW)) && m.(out := NO_OUTPUT) == n.(out := NO_OUTPUT, commit := |n.log.entries|)
  {
    AllVote(n);
    Sort3(Matches(n, THREE));
    PlainBetween(n.log, 0, |n.log.entries|);
    m := MaybeAdvance(n, DRAW);
  }

  lemma AckIs(n: Node, from: NodeId, i: Index, acked: Progress, m: Node)
    requires n.role == Leader && from in n.prs && acked == Advanced(Credited(n.prs[from], 0), i)
    requires m == ProcessReadAcks(MaybeAdvance(WithProgress(n, from, acked), DRAW)) && (from in m.prs ==> m.prs[from].next > n.log.LastIndex())
    ensures React(n, Deliver(n.cfg.id, Message(from, n.cfg.id, n.hs.term, AppendEntriesResp(true, i, 0, 0)), DRAW)) == m
  {}

  lemma {:induction false} PlainBetween(log: RaftLog, lo: Index, hi: Index)
    requires NoConf(log.entries)
    ensures forall e :: e in Between(log, lo, hi) ==> !e.payload.Conf?
    decreases hi
  {
    if lo < hi { PlainBetween(log, lo, hi - 1); }
  }

  /** A read registered by a leader that has committed its whole log. */
  lemma Registers(es: seq<Entry>, t: Term, p2: Progress, p3: Progress, rid: nat)
    requires es != [] && NoConf(es) && es[|es| - 1].term == t && p2.next == p3.next == |es| + 1 && !p2.pendingSnapshot && !p3.pendingSnapshot
    ensures Goes(Leads(1, es, t, 2, |es|, 2, p2, 3, p3, 0, []), ClientRead(1, rid),
                 Leads(1, es, t, 2, |es|, 2, p2, 3, p3, 1, [PendingRead(1, rid, |es|)]),
                 Message(1, 2, t, AppendEntries(|es|, t, [], |es|, 1)))
  {
    var n := Leads(1, es, t, 2, |es|, 2, p2, 3, p3, 0, []);
    var m := n.(readCtx := 1, pendingReads := n.pendingReads + [PendingRead(1, rid, |es|)]);
    assert m.pendingReads == [PendingRead(1, rid, |es|)];
    AllVote(m);
    IdleBroadcast(1, 2, 3, es, t, 2, |es|, p2, p3, 1, [PendingRead(1, rid, |es|)], m);
  }

  /** The read is released although nobody was asked about it. */
  lemma Releases()
    ensures ReadState(7, 2) in React(Leads(1, [E1, E2], 2, 2, 2, 2, Pr(3, 2, 0, 1), 3, Pr(3, 0, 1, 0), 1, [PendingRead(1, 7, 2)]),
                                     Deliver(1, Message(2, 1, 2, AppendEntriesResp(true, 2, 0, 0)), DRAW)).out.readStates
  {
    var n := Leads(1, [E1, E2], 2, 2, 2, 2, Pr(3, 2, 0, 1), 3, Pr(3, 0, 1, 0), 1, [PendingRead(1, 7, 2)]);
    assert Advanced(Credited(Pr(3, 2, 0, 1), 0), 2) == Pr(3, 2, 0, 1);
    assert n.prs[2 := Pr(3, 2, 0, 1)] == n.prs;
    var n1 := WithProgress(n, 2, Pr(3, 2, 0, 1));
    assert n1 == n;
    AllVote(n);
    Sort3(Matches(n, THREE));
    assert SortDesc(Matches(n, THREE))[1] == 2;
    assert MaybeAdvance(n, DRAW) == n;
    Sort3(ReadAcks(n, THREE));
    assert SortDesc(ReadAcks(n, THREE))[1] == 1;
    assert n.pendingReads[1..] == [];
    assert ReadyReads(n.pendingReads, 1) == [ReadState(7, 2)] + ReadyReads([], 1);
    assert ProcessReadAcks(n) == ReleaseReads(n, 1);
  }

  // ------------------------------------------------------------- scenes of the run

  /** A run without compaction. */
  ghost predicate Path(cs: seq<Cluster>, evs: seq<Event>) {
    && |cs| == |evs| + 1 && Init(cs[0])
    && forall i :: 0 <= i < |evs| ==> Steps(cs[i], evs[i], false, cs[i + 1])
  }

  /** Not the delivery of an answer to an older term's append. */
  predicate Quiet(ev: Event) { ev.Deliver? ==> !StaleEcho(ev.msg) }

  /** A timeout the default configuration can draw. */
  predicate Drawn(ev: Event) { ev.Ticks? || ev.Deliver? || ev.Restart? ==> 10 <= ev.rnd < 20 }

  /** The only step, if any, that delivers a stale echo, to node 1 as leader of term 2. */
  ghost predicate OneEcho(cs: seq<Cluster>, evs: seq<Event>, echo: int)
    requires |cs| == |evs| + 1
  {
    && echo < |evs| && (forall i :: 0 <= i < |evs| && i != echo ==> Quiet(evs[i])) && (forall i :: 0 <= i < |evs| ==> Drawn(evs[i]))
    && (0 <= echo ==> Echoed(cs[echo], evs[echo], 1, 2, 1))
  }

  /** A finite run and the step of its stale echo, negative while there is none. */
  datatype Story = Story(cs: seq<Cluster>, evs: seq<Event>, echo: int) {
    ghost predicate Told() {
      var told := Path(cs, evs) && OneEcho(cs, evs, echo);
      told
    }
    ghost function Net(): set<Message> requires Told() { cs[|evs|].net }
  }

  /** The three nodes. */
  datatype Trio = Trio(a: Node, b: Node, d: Node) {
    function Get(id: NodeId): Node { if id == 1 then a else if id == 2 then b else d }

    function Put(id: NodeId, m: Node): Trio {
      if id == 1 then this.(a := m) else if id == 2 then this.(b := m) else this.(d := m)
    }
  }

  ghost predicate Stand(c: Cluster, tr: Trio) {
    && c.voters == THREE && c.cfgs == map[1 := Cfg(1), 2 := Cfg(2), 3 := Cfg(3)] && c.hosts.Keys == {1, 2, 3}
    && c.hosts[1].raft == Some(tr.a) && c.hosts[2].raft == Some(tr.b) && c.hosts[3].raft == Some(tr.d)
  }

  /** The story ends with these three nodes, all up, and read 7 has not come up in it. */
  ghost predicate Scene(s: Story, tr: Trio) {
    var scene := s.Told() && Stand(s.cs[|s.evs|], tr) && ClientRead(1, 7) !in s.evs;
    scene
  }

  ghost predicate Holds(s: Story, m: Message) {
    var holds := s.Told() && m in s.Net();
    holds
  }

  ghost predicate Grows(s: Story, s2: Story) { s.echo == s2.echo && forall m :: Holds(s, m) ==> Holds(s2, m) }

  lemma Extend(s: Story, ev: Event, c2: Cluster, echo: int) returns (s2: Story)
    requires s.Told() && Steps(s.cs[|s.evs|], ev, false, c2) && Drawn(ev)
    requires (Quiet(ev) && echo == s.echo) || (s.echo < 0 && echo == |s.evs| && Echoed(s.cs[|s.evs|], ev, 1, 2, 1))
    ensures s2 == Story(s.cs + [c2], s.evs + [ev], echo) && s2.Told()
  {
    var cs2, evs2 := s.cs + [c2], s.evs + [ev];
    forall i | 0 <= i < |evs2| ensures Steps(cs2[i], evs2[i], false, cs2[i + 1]) {
      if i < |s.evs| { assert Steps(s.cs[i], s.evs[i], false, s.cs[i + 1]); }
    }
    forall i | 0 <= i < |evs2| && i != echo ensures Quiet(evs2[i]) {
      if i < |s.evs| { assert Quiet(s.evs[i]); }
    }
    s2 := Story(cs2, evs2, echo);
    assert Path(cs2, evs2) && OneEcho(cs2, evs2, echo);
  }

  /** One event of a node that is up. */
  lemma Act(s: Story, tr: Trio, ev: Event, m: Node, sent: set<Message>) returns (s2: Story)
    requires Scene(s, tr) && ev.id in THREE && !ev.Crash? && !ev.Restart? && Quiet(ev) && Drawn(ev)
    requires ev.Deliver? ==> Holds(s, ev.msg) && ev.msg.to == ev.id
    requires React(tr.Get(ev.id), ev).(out := NO_OUTPUT) == m && forall x :: x in sent ==> x in React(tr.Get(ev.id), ev).out.messages
    ensures s2.Told() && Stand(s2.cs[|s2.evs|], tr.Put(ev.id, m)) && s2.evs == s.evs + [ev] && s2.cs[..|s.cs|] == s.cs
    ensures Grows(s, s2) && (ev != ClientRead(1, 7) ==> Scene(s2, tr.Put(ev.id, m))) && forall x :: x in sent ==> Holds(s2, x)
  {
    var c2 := Next(s.cs[|s.evs|], ev, false);
    s2 := Extend(s, ev, c2, s.echo);
    assert c2.hosts.Keys == {1, 2, 3};
  }

  lemma DoTick(s: Story, tr: Trio, id: NodeId, es: seq<Entry>, t: Term, vote: Option<NodeId>, leader: Option<NodeId>, elapsed: nat, ticks: nat)
    returns (s2: Story)
    requires Scene(s, tr) && id in THREE && tr.Get(id) == Follow(id, es, t, vote, leader, elapsed, ticks) && elapsed + 1 < DRAW
    ensures Scene(s2, tr.Put(id, Follow(id, es, t, vote, leader, elapsed + 1, ticks + 1))) && Grows(s, s2)
  {
    Waits(id, es, t, vote, leader, elapsed, ticks);
    s2 := Act(s, tr, Ticks(id, DRAW), Follow(id, es, t, vote, leader, elapsed + 1, ticks + 1), {});
  }

  lemma PutTwice(tr: Trio, id: NodeId, m: Node, m2: Node)
    requires id in THREE
    ensures tr.Put(id, m).Get(id) == m && tr.Put(id, m).Put(id, m2) == tr.Put(id, m2) && tr.Put(id, tr.Get(id)) == tr
  {}

  lemma GrowsOn(s: Story, s1: Story, s2: Story)
    requires Grows(s, s1) && Grows(s1, s2)
    ensures Grows(s, s2)
  {}

  lemma {:induction false} DoWait(s: Story, tr: Trio, id: NodeId, es: seq<Entry>, t: Term, vote: Option<NodeId>, leader: Option<NodeId>,
                                  elapsed: nat, ticks: nat, k: nat) returns (s2: Story)
    requires Scene(s, tr) && id in THREE && tr.Get(id) == Follow(id, es, t, vote, leader, elapsed, ticks) && elapsed + k < DRAW
    ensures Scene(s2, tr.Put(id, Follow(id, es, t, vote, leader, elapsed + k, ticks + k))) && Grows(s, s2)
    decreases k
  {
    var m := Follow(id, es, t, vote, leader, elapsed + 1, ticks + 1);
    PutTwice(tr, id, m, Follow(id, es, t, vote, leader, elapsed + k, ticks + k));
    if k == 0 {
      s2 := s;
    } else {
      var s1 := DoTick(s, tr, id, es, t, vote, leader, elapsed, ticks);
      s2 := DoWait(s1, tr.Put(id, m), id, es, t, vote, leader, elapsed + 1, ticks + 1, k - 1);
      GrowsOn(s, s1, s2);
    }
  }

  /** A follower's timer runs out and it asks the others. */
  lemma DoProbe(s: Story, tr: Trio, id: NodeId, p: NodeId, q: NodeId, es: seq<Entry>, t: Term, vote: Option<NodeId>, leader: Option<NodeId>)
    returns (s2: Story)
    requires Scene(s, tr) && Sees(id, p, q) && NoConf(es) && tr.Get(id) == Follow(id, es, t, vote, leader, 0, TicksOf(id) - DRAW)
    ensures Scene(s2, tr.Put(id, Probing(id, es, t, vote, leader))) && Grows(s, s2)
    ensures Holds(s2, Message(id, if id == 1 then p else q, t + 1, PreVote(|es|, RaftLog(0, 0, es).LastTerm())))
  {
    var n, m := Follow(id, es, t, vote, leader, 10, TicksOf(id) - 1), Probing(id, es, t, vote, leader);
    var s1 := DoWait(s, tr, id, es, t, vote, leader, 0, TicksOf(id) - DRAW, 10);
    PutTwice(tr, id, n, m);
    s2 := DoFire(s1, tr.Put(id, n), id, p, q, es, t, vote, leader);
    GrowsOn(s, s1, s2);
  }

  lemma DoFire(s: Story, tr: Trio, id: NodeId, p: NodeId, q: NodeId, es: seq<Entry>, t: Term, vote: Option<NodeId>, leader: Option<NodeId>)
    returns (s2: Story)
    requires Scene(s, tr) && Sees(id, p, q) && NoConf(es) && tr.Get(id) == Follow(id, es, t, vote, leader, 10, TicksOf(id) - 1)
    ensures Scene(s2, tr.Put(id, Probing(id, es, t, vote, leader))) && Grows(s, s2)
    ensures Holds(s2, Message(id, if id == 1 then p else q, t + 1, PreVote(|es|, RaftLog(0, 0, es).LastTerm())))
  {
    Probes(id, p, q, es, t, vote, leader);
    s2 := Act(s, tr, Ticks(id, DRAW), Probing(id, es, t, vote, leader),
              {Message(id, if id == 1 then p else q, t + 1, PreVote(|es|, RaftLog(0, 0, es).LastTerm()))});
  }

  lemma DoPreGrant(s: Story, tr: Trio, id: NodeId, es: seq<Entry>, t0: Term, vote: Option<NodeId>, leader: Option<NodeId>,
                   elapsed: nat, ticks: nat, c: NodeId, t: Term, lli: Index, llt: Term) returns (s2: Story)
    requires Scene(s, tr) && id in THREE && tr.Get(id) == Follow(id, es, t0, vote, leader, elapsed, ticks)
    requires t0 < t && LogUpToDate(Follow(id, es, t0, vote, leader, elapsed, ticks), lli, llt) && (leader.None? || elapsed >= 10)
    requires Holds(s, Message(c, id, t, PreVote(lli, llt)))
    ensures Scene(s2, tr) && Grows(s, s2) && Holds(s2, Message(id, c, t, PreVoteResp(true)))
  {
    PreGrants(id, es, t0, vote, leader, elapsed, ticks, c, t, lli, llt);
    s2 := Act(s, tr, Deliver(id, Message(c, id, t, PreVote(lli, llt)), DRAW), Follow(id, es, t0, vote, leader, elapsed, ticks),
              {Message(id, c, t, PreVoteResp(true))});
    assert tr.Put(id, tr.Get(id)) == tr;
  }

  lemma DoCampaign(s: Story, tr: Trio, id: NodeId, p: NodeId, q: NodeId, es: seq<Entry>, t: Term,
                   vote: Option<NodeId>, leader: Option<NodeId>, v: NodeId) returns (s2: Story)
    requires Scene(s, tr) && Sees(id, p, q) && NoConf(es) && (v == p || v == q) && tr.Get(id) == Probing(id, es, t, vote, leader)
    requires Holds(s, Message(v, id, t + 1, PreVoteResp(true)))
    ensures Scene(s2, tr.Put(id, Runs(id, es, t + 1))) && Grows(s, s2)
    ensures Holds(s2, Message(id, v, t + 1, RequestVote(|es|, RaftLog(0, 0, es).LastTerm())))
  {
    Campaigns(id, p, q, es, t, vote, leader, v);
    s2 := Act(s, tr, Deliver(id, Message(v, id, t + 1, PreVoteResp(true)), DRAW), Runs(id, es, t + 1),
              {Message(id, v, t + 1, RequestVote(|es|, RaftLog(0, 0, es).LastTerm()))});
  }

  lemma DoGrant(s: Story, tr: Trio, id: NodeId, es: seq<Entry>, t0: Term, vote: Option<NodeId>, leader: Option<NodeId>,
                elapsed: nat, ticks: nat, c: NodeId, t: Term, lli: Index, llt: Term) returns (s2: Story)
    requires Scene(s, tr) && id in THREE && tr.Get(id) == Follow(id, es, t0, vote, leader, elapsed, ticks)
    requires t0 < t && LogUpToDate(Follow(id, es, t0, vote, leader, elapsed, ticks), lli, llt)
    requires Holds(s, Message(c, id, t, RequestVote(lli, llt)))
    ensures Scene(s2, tr.Put(id, Follow(id, es, t, Some(c), None, 0, ticks))) && Grows(s, s2) && Holds(s2, Vote(id, c, t))
  {
    Grants(id, es, t0, vote, leader, elapsed, ticks, c, t, lli, llt);
    s2 := Act(s, tr, Deliver(id, Message(c, id, t, RequestVote(lli, llt)), DRAW), Follow(id, es, t, Some(c), None, 0, ticks), {Vote(id, c, t)});
  }

  /** A whole election of node `id` by node `v`, up to the vote. */
  lemma DoElect(s: Story, tr: Trio, id: NodeId, p: NodeId, q: NodeId, es: seq<Entry>, t: Term, vote: Option<NodeId>, leader: Option<NodeId>,
                v: NodeId, vs: seq<Entry>, t0: Term, vvote: Option<NodeId>, vleader: Option<NodeId>, elapsed: nat, ticks: nat) returns (s2: Story)
    requires Scene(s, tr) && Sees(id, p, q) && NoConf(es) && v == (if id == 1 then p else q)
    requires tr.Get(id) == Follow(id, es, t, vote, leader, 0, TicksOf(id) - DRAW)
    requires tr.Get(v) == Follow(v, vs, t0, vvote, vleader, elapsed, ticks) && t0 <= t && (vleader.None? || elapsed >= 10)
    requires LogUpToDate(Follow(v, vs, t0, vvote, vleader, elapsed, ticks), |es|, RaftLog(0, 0, es).LastTerm())
    ensures Scene(s2, tr.Put(id, Runs(id, es, t + 1)).Put(v, Follow(v, vs, t + 1, Some(id), None, 0, ticks)))
    ensures Grows(s, s2) && Holds(s2, Vote(v, id, t + 1))
  {
    var tr1, tr2 := tr.Put(id, Probing(id, es, t, vote, leader)), tr.Put(id, Runs(id, es, t + 1));
    var lt := RaftLog(0, 0, es).LastTerm();
    s2 := DoProbe(s, tr, id, p, q, es, t, vote, leader);
    s2 := DoPreGrant(s2, tr1, v, vs, t0, vvote, vleader, elapsed, ticks, id, t + 1, |es|, lt);
    s2 := DoCampaign(s2, tr1, id, p, q, es, t, vote, leader, v);
    assert tr1.Put(id, Runs(id, es, t + 1)) == tr2;
    s2 := DoGrant(s2, tr2, v, vs, t0, vvote, vleader, elapsed, ticks, id, t + 1, |es|, lt);
  }

  lemma DoWin(s: Story, tr: Trio, id: NodeId, p: NodeId, q: NodeId, es: seq<Entry>, t: Term, v: NodeId, es2: seq<Entry>) returns (s2: Story)
    requires Scene(s, tr) && Sees(id, p, q) && (v == p || v == q) && t > 0 && |es| < 9 && NoConf(es)
    requires tr.Get(id) == Runs(id, es, t) && Holds(s, Vote(v, id, t)) && forall i :: 0 <= i < |es| ==> es[i].term != t
    requires es2 == es + [Entry(t, |es| + 1, Noop)]
    ensures Scene(s2, tr.Put(id, Leads(id, es2, t, v, 0, p, Pr(|es| + 2, 0, 1, 0), q, Pr(|es| + 2, 0, 1, 0), 0, []))) && Grows(s, s2)
    ensures var ae := AppendEntries(|es|, RaftLog(0, 0, es).LastTerm(), [Entry(t, |es| + 1, Noop)], 0, 0);
            Holds(s2, Message(id, p, t, ae)) && Holds(s2, Message(id, q, t, ae))
  {
    var ae, pr := AppendEntries(|es|, RaftLog(0, 0, es).LastTerm(), [Entry(t, |es| + 1, Noop)], 0, 0), Pr(|es| + 2, 0, 1, 0);
    Wins(id, p, q, es, t, v);
    s2 := Act(s, tr, Deliver(id, Vote(v, id, t), DRAW), Leads(id, es2, t, v, 0, p, pr, q, pr, 0, []), {Message(id, p, t, ae), Message(id, q, t, ae)});
  }

  lemma DoAccept(s: Story, tr: Trio, id: NodeId, es: seq<Entry>, t: Term, vote: Option<NodeId>, leader: Option<NodeId>, ticks: nat,
                 from: NodeId, more: seq<Entry>, es2: seq<Entry>) returns (s2: Story)
    requires Scene(s, tr) && id in THREE && tr.Get(id) == Follow(id, es, t, vote, leader, 0, ticks)
    requires more != [] && NoConf(es) && (forall i :: 0 <= i < |more| ==> more[i].index == |es| + 1 + i) && es2 == es + more
    requires Holds(s, Message(from, id, t, AppendEntries(|es|, RaftLog(0, 0, es).LastTerm(), more, 0, 0)))
    ensures Scene(s2, tr.Put(id, Follow(id, es2, t, vote, Some(from), 0, ticks))) && Grows(s, s2)
    ensures Holds(s2, Message(id, from, t, AppendEntriesResp(true, |es2|, 0, 0)))
  {
    Accepts(id, es, t, vote, leader, ticks, from, more);
    s2 := Act(s, tr, Deliver(id, Message(from, id, t, AppendEntries(|es|, RaftLog(0, 0, es).LastTerm(), more, 0, 0)), DRAW),
              Follow(id, es2, t, vote, Some(from), 0, ticks), {Message(id, from, t, AppendEntriesResp(true, |es2|, 0, 0))});
  }

  lemma DoCommit(s: Story, tr: Trio, id: NodeId, p: NodeId, q: NodeId, es: seq<Entry>, t: Term,
                 v: NodeId, from: NodeId, pr: Progress, other: Progress) returns (s2: Story)
    requires Scene(s, tr) && Sees(id, p, q) && (from == p || from == q) && NoConf(es) && es != [] && es[|es| - 1].term == t
    requires pr == Pr(|es| + 1, 0, 1, pr.ackedReadCtx) && other.matched == 0
    requires tr.Get(id) == Leads(id, es, t, v, 0, p, if from == p then pr else other, q, if from == q then pr else other, 0, [])
    requires Holds(s, Message(from, id, t, AppendEntriesResp(true, |es|, 0, 0)))
    ensures var acked := Pr(|es| + 1, |es|, 0, pr.ackedReadCtx);
            Scene(s2, tr.Put(id, Leads(id, es, t, v, |es|, p, if from == p then acked else other, q, if from == q then acked else other, 0, [])))
    ensures Grows(s, s2)
  {
    var acked := Pr(|es| + 1, |es|, 0, pr.ackedReadCtx);
    Commits(id, p, q, es, t, v, from, pr, other);
    s2 := Act(s, tr, Deliver(id, Message(from, id, t, AppendEntriesResp(true, |es|, 0, 0)), DRAW),
              Leads(id, es, t, v, |es|, p, if from == p then acked else other, q, if from == q then acked else other, 0, []), {});
  }

  lemma DoRegister(s: Story, tr: Trio, es: seq<Entry>, t: Term, p2: Progress, p3: Progress, rid: nat) returns (s2: Story)
    requires Scene(s, tr) && es != [] && NoConf(es) && es[|es| - 1].term == t
    requires p2.next == p3.next == |es| + 1 && !p2.pendingSnapshot && !p3.pendingSnapshot
    requires tr.a == Leads(1, es, t, 2, |es|, 2, p2, 3, p3, 0, [])
    ensures var tr2 := tr.Put(1, Leads(1, es, t, 2, |es|, 2, p2, 3, p3, 1, [PendingRead(1, rid, |es|)]));
            && s2.Told() && Stand(s2.cs[|s2.evs|], tr2) && s2.evs == s.evs + [ClientRead(1, rid)] && s2.cs[..|s.cs|] == s.cs
            && (rid != 7 ==> Scene(s2, tr2)) && Grows(s, s2) && Holds(s2, Message(1, 2, t, AppendEntries(|es|, t, [], |es|, 1)))
  {
    Registers(es, t, p2, p3, rid);
    s2 := Act(s, tr, ClientRead(1, rid), Leads(1, es, t, 2, |es|, 2, p2, 3, p3, 1, [PendingRead(1, rid, |es|)]),
              {Message(1, 2, t, AppendEntries(|es|, t, [], |es|, 1))});
  }

  /** Node 1 stops and starts again from its disk. */
  lemma DoReboot(s: Story, tr: Trio, es: seq<Entry>, hs: HardState) returns (s2: Story)
    requires Scene(s, tr) && tr.a.snapshot == None && tr.a.hs == hs && tr.a.log.entries == es
    ensures Scene(s2, tr.Put(1, New(Cfg(1), THREE, Persisted(hs, es, None), DRAW))) && Grows(s, s2)
  {
    var k := |s.evs|;
    var c := s.cs[k];
    DiskMirrorsMemory(s.cs, s.evs, seq(k, i => false), k, 1, 0);
    var c1 := Next(c, Crash(1), false);
    var s1 := Extend(s, Crash(1), c1, s.echo);
    var c2 := Next(c1, Restart(1, DRAW), false);
    s2 := Extend(s1, Restart(1, DRAW), c2, s.echo);
    assert c2.hosts.Keys == {1, 2, 3};
  }

  const IDLE: Node := Follow(3, [], 0, None, None, 0, 0)
  const FIRST: Trio := Trio(Follow(1, [], 0, None, None, 0, 0), Follow(2, [], 0, None, None, 0, 0), IDLE)

  lemma Begins() returns (s: Story)
    ensures Scene(s, FIRST) && s.echo < 0
  {
    var cfgs := map[1 := Cfg(1), 2 := Cfg(2), 3 := Cfg(3)];
    var h := (id: NodeId) => Host(Some(New(Cfg(id), THREE, BLANK, DRAW)), BLANK, Kvsm.EMPTY, 0);
    var c := Cluster(THREE, cfgs, map[1 := h(1), 2 := h(2), 3 := h(3)], {}, map[], map[]);
    forall v | v in c.hosts ensures exists rnd: nat :: c.hosts[v] == Host(Some(New(c.cfgs[v], c.voters, BLANK, rnd)), BLANK, Kvsm.EMPTY, 0) {
      assert c.hosts[v] == Host(Some(New(c.cfgs[v], c.voters, BLANK, DRAW)), BLANK, Kvsm.EMPTY, 0);
    }
    s := Story([c], [], -1);
    assert Path(s.cs, s.evs) && OneEcho(s.cs, s.evs, s.echo);
  }

  // ------------------------------------------------------------- the run

  function Vote(from: NodeId, to: NodeId, t: Term): Message { Message(from, to, t, RequestVoteResp(true)) }

  const LATE: Message := Message(1, 2, 1, AppendEntries(1, 1, [], 1, 1))
  const ECHO: Message := Message(2, 1, 2, AppendEntriesResp(false, 0, 0, 1))
  const ACK: Message := Message(2, 1, 2, AppendEntriesResp(true, 2, 0, 0))
  const ACK1: Message := Message(2, 1, 1, AppendEntriesResp(true, 1, 0, 0))
  const APPEND2: Message := Message(1, 2, 2, AppendEntries(1, 1, [E2], 0, 0))
  const WHOLE: Message := Message(2, 3, 3, AppendEntries(0, 0, [E1, E2, E3], 0, 0))
  const VOTE1: Message := Vote(2, 1, 1)
  const VOTE2: Message := Vote(2, 1, 2)
  const VOTE3: Message := Vote(3, 2, 3)

  const STANDS1: Trio := Trio(Runs(1, [], 1), Follow(2, [], 1, Some(1), None, 0, 0), IDLE)
  const LEADS1: Trio :=
    Trio(Leads(1, [E1], 1, 2, 0, 2, Pr(2, 0, 1, 0), 3, Pr(2, 0, 1, 0), 0, []), Follow(2, [E1], 1, Some(1), Some(1), 0, 0), IDLE)
  const ASKS1: Trio :=
    Trio(Leads(1, [E1], 1, 2, 1, 2, Pr(2, 1, 0, 0), 3, Pr(2, 0, 1, 0), 1, [PendingRead(1, 1, 1)]), Follow(2, [E1], 1, Some(1), Some(1), 0, 0), IDLE)
  const STANDS2: Trio := Trio(Runs(1, [E1], 2), Follow(2, [E1], 2, Some(1), None, 0, 10), IDLE)
  const LEADS2: Trio :=
    Trio(Leads(1, [E1, E2], 2, 2, 0, 2, Pr(3, 0, 1, 0), 3, Pr(3, 0, 1, 0), 0, []), Follow(2, [E1], 2, Some(1), None, 0, 10), IDLE)
  const CREDITED2: Trio :=
    Trio(Leads(1, [E1, E2], 2, 2, 0, 2, Pr(3, 0, 1, 1), 3, Pr(3, 0, 1, 0), 0, []), Follow(2, [E1], 2, Some(1), None, 0, 10), IDLE)
  const COMMITS2: Trio := Trio(STALE, Follow(2, [E1, E2], 2, Some(1), Some(1), 0, 10), IDLE)
  const STANDS3: Trio := Trio(STALE, Runs(2, [E1, E2], 3), Follow(3, [], 3, Some(2), None, 0, 0))
  const LEADS3: Trio :=
    Trio(STALE, Leads(2, [E1, E2, E3], 3, 3, 0, 1, Pr(4, 0, 1, 0), 3, Pr(4, 0, 1, 0), 0, []), Follow(3, [], 3, Some(2), Some(2), 0, 0))

  /** Node 1 stands for term 1 and node 2 votes for it.  Node 2 never ticks before term 2. */
  lemma Scene1() returns (s: Story)
    ensures Scene(s, STANDS1) && Holds(s, VOTE1) && s.echo < 0
  {
    s := Begins();
    s := DoElect(s, FIRST, 1, 2, 3, [], 0, None, None, 2, [], 0, None, None, 0, 0);
  }

  /** Node 1 leads and node 2 takes its no-op. */
  lemma Scene2() returns (s: Story)
    ensures Scene(s, LEADS1) && Holds(s, ACK1) && s.echo < 0
  {
    s := Scene1();
    s := DoWin(s, STANDS1, 1, 2, 3, [], 1, 2, [E1]);
    s := DoAccept(s, Trio(LEADS1.a, STANDS1.b, IDLE), 2, [], 1, Some(1), None, 0, 1, [E1], [E1]);
  }

  /** Node 1 commits and opens read round 1; its append to node 2 stays under way. */
  lemma Scene3() returns (s: Story)
    ensures Scene(s, ASKS1) && Holds(s, LATE) && s.echo < 0
  {
    s := Scene2();
    var p := Pr(2, 0, 1, 0);
    s := DoCommit(s, LEADS1, 1, 2, 3, [E1], 1, 2, 2, p, p);
    s := DoRegister(s, Trio(Leads(1, [E1], 1, 2, 1, 2, Pr(2, 1, 0, 0), 3, p, 0, []), LEADS1.b, IDLE), [E1], 1, Pr(2, 1, 0, 0), p, 1);
  }

  /** Node 1 restarts; node 2 misses it for ten ticks, and votes for it again when it stands for term 2. */
  lemma Scene4() returns (s: Story)
    ensures Scene(s, STANDS2) && Holds(s, VOTE2) && Holds(s, LATE) && s.echo < 0
  {
    s := Scene3();
    var a, b := Follow(1, [E1], 1, Some(1), None, 0, 0), Follow(2, [E1], 1, Some(1), Some(1), 0, 0);
    s := DoReboot(s, ASKS1, [E1], HardState(1, Some(1)));
    s := DoWait(s, Trio(a, b, IDLE), 2, [E1], 1, Some(1), Some(1), 0, 0, 10);
    s := DoElect(s, Trio(a, Follow(2, [E1], 1, Some(1), Some(1), 10, 10), IDLE), 1, 2, 3, [E1], 1, Some(1), None,
                 2, [E1], 1, Some(1), Some(1), 10, 10);
  }

  /** Node 1 leads term 2, and node 2 answers the late append of term 1. */
  lemma Scene5() returns (s: Story)
    ensures Scene(s, LEADS2) && Holds(s, APPEND2) && Holds(s, ECHO) && s.echo < 0
  {
    s := Scene4();
    s := DoWin(s, STANDS2, 1, 2, 3, [E1], 2, 2, [E1, E2]);
    AnswersLate();
    s := Act(s, LEADS2, Deliver(2, LATE, DRAW), LEADS2.b, {ECHO});
  }

  /** Node 1 takes the answer for a confirmation of round 1, which it has not opened yet. */
  lemma SceneEcho() returns (s: Story)
    ensures Scene(s, CREDITED2) && Holds(s, APPEND2) && s.echo >= 0
  {
    var s0 := Scene5();
    var k, ev := |s0.evs|, Deliver(1, ECHO, DRAW);
    assert Stand(s0.cs[k], LEADS2) && ECHO in s0.cs[k].net;
    CreditsLate();
    var c2 := Next(s0.cs[k], ev, false);
    s := Extend(s0, ev, c2, k);
    assert c2.hosts.Keys == {1, 2, 3};
  }

  const STALE: Node := Leads(1, [E1, E2], 2, 2, 2, 2, Pr(3, 2, 0, 1), 3, Pr(3, 0, 1, 0), 0, [])

  /** Node 2 takes the no-op of term 2 and node 1 commits it. */
  lemma Scene6() returns (s: Story)
    ensures Scene(s, COMMITS2) && Holds(s, ACK) && s.echo >= 0
  {
    s := SceneEcho();
    var p := Pr(3, 0, 1, 0);
    s := DoAccept(s, CREDITED2, 2, [E1], 2, Some(1), None, 10, 1, [E2], [E1, E2]);
    s := DoCommit(s, Trio(CREDITED2.a, COMMITS2.b, IDLE), 1, 2, 3, [E1, E2], 2, 2, 2, Pr(3, 0, 1, 1), p);
  }

  /** Node 2 stands for term 3 and node 3 votes for it. */
  lemma Scene7() returns (s: Story)
    ensures Scene(s, STANDS3) && Holds(s, ACK) && Holds(s, VOTE3) && s.echo >= 0
  {
    s := Scene6();
    s := DoElect(s, COMMITS2, 2, 1, 3, [E1, E2], 2, Some(1), Some(1), 3, [], 0, None, None, 0, 0);
  }

  /** Node 2 leads term 3; node 3 rejects its first append and gets the whole log. */
  lemma Scene8() returns (s: Story)
    ensures Scene(s, LEADS3) && Holds(s, ACK) && Holds(s, WHOLE) && s.echo >= 0
  {
    s := Scene7();
    var d, d2, l := Follow(3, [], 3, Some(2), None, 0, 0), Follow(3, [], 3, Some(2), Some(2), 0, 0),
                    Leads(2, [E1, E2, E3], 3, 3, 0, 1, Pr(4, 0, 1, 0), 3, Pr(4, 0, 1, 0), 0, []);
    s := DoWin(s, Trio(STALE, Runs(2, [E1, E2], 3), d), 2, 1, 3, [E1, E2], 3, 3, [E1, E2, E3]);
    Rejects();
    s := Act(s, Trio(STALE, l, d), Deliver(3, Message(2, 3, 3, AppendEntries(2, 2, [E3], 0, 0)), DRAW), d2,
             {Message(3, 2, 3, AppendEntriesResp(false, 0, 1, 0))});
    Repairs();
    s := Act(s, Trio(STALE, l, d2), Deliver(2, Message(3, 2, 3, AppendEntriesResp(false, 0, 1, 0)), DRAW), l,
             {Message(2, 3, 3, AppendEntries(0, 0, [E1, E2, E3], 0, 0))});
  }

  /** Nodes 2 and 3 commit index 3. */
  lemma Scene9() returns (s: Story, b: Node, d: Node)
    ensures Scene(s, Trio(STALE, b, d)) && b.commit == 3 && Holds(s, ACK) && s.echo >= 0
  {
    s := Scene8();
    var l := Leads(2, [E1, E2, E3], 3, 3, 0, 1, Pr(4, 0, 1, 0), 3, Pr(4, 0, 1, 0), 0, []);
    s := DoAccept(s, Trio(STALE, l, Follow(3, [], 3, Some(2), Some(2), 0, 0)), 3, [], 3, Some(2), Some(2), 0, 2, [E1, E2, E3], [E1, E2, E3]);
    d := Follow(3, [E1, E2, E3], 3, Some(2), Some(2), 0, 0);
    s := DoCommit(s, Trio(STALE, l, d), 2, 1, 3, [E1, E2, E3], 3, 3, 3, Pr(4, 0, 1, 0), Pr(4, 0, 1, 0));
    b := Leads(2, [E1, E2, E3], 3, 3, 3, 1, Pr(4, 0, 1, 0), 3, Pr(4, 3, 0, 0), 0, []);
  }

  ghost predicate Defaults(c: Cluster) { forall v :: v in c.cfgs ==> c.cfgs[v] == Cfg(v) }

  /** Read 7 comes up at step `r`, and only there, when node 2 has already committed index 3. */
  ghost predicate Asked(s: Story, r: nat) {
    var once := 0 <= s.echo < r < |s.evs| < |s.cs| && forall i :: 0 <= i < |s.evs| ==> (s.evs[i] == ClientRead(1, 7) <==> i == r);
    once && Defaults(s.cs[0]) && Ahead(s.cs[r])
  }

  ghost predicate Ahead(c: Cluster) {
    var ahead := 2 in c.hosts && 2 in c.cfgs && NodeAt(c, 2).commit == 3;
    ahead
  }

  const ASKED: Node := Leads(1, [E1, E2], 2, 2, 2, 2, Pr(3, 2, 0, 1), 3, Pr(3, 0, 1, 0), 1, [PendingRead(1, 7, 2)])

  lemma Configured(s: Story, tr: Trio)
    requires Scene(s, tr)
    ensures Defaults(s.cs[0])
  {
    var compacts := StoryRuns(s);
    ConfigFixed(s.cs, s.evs, compacts, |s.evs|);
  }

  lemma AheadNow(s: Story, b: Node, d: Node)
    requires Scene(s, Trio(STALE, b, d)) && b.commit == 3
    ensures Ahead(s.cs[|s.evs|])
  {}

  lemma AskedNow(s0: Story, s: Story, tr: Trio)
    requires Scene(s0, tr) && s.evs == s0.evs + [ClientRead(1, 7)] && s0.echo == s.echo >= 0 && |s.cs| > |s.evs| && s.cs[..|s0.cs|] == s0.cs
    requires Defaults(s0.cs[0]) && Ahead(s0.cs[|s0.evs|])
    ensures Asked(s, |s0.evs|)
  {
    assert s.cs[0] == s0.cs[0] && s.cs[|s0.evs|] == s0.cs[|s0.evs|];
    forall i | 0 <= i < |s0.evs| ensures s.evs[i] != ClientRead(1, 7) { assert s.evs[i] in s0.evs; }
  }

  /** The superseded leader registers read 7. */
  lemma Asks() returns (s: Story, b: Node, d: Node)
    ensures s.Told() && |s.evs| > 0 && Asked(s, |s.evs| - 1) && Stand(s.cs[|s.evs|], Trio(ASKED, b, d)) && Holds(s, ACK)
  {
    var s0;
    s0, b, d := Scene9();
    Configured(s0, Trio(STALE, b, d));
    AheadNow(s0, b, d);
    s := DoRegister(s0, Trio(STALE, b, d), [E1, E2], 2, Pr(3, 2, 0, 1), Pr(3, 0, 1, 0), 7);
    AskedNow(s0, s, Trio(STALE, b, d));
  }

  /** It releases the read on a repeated acknowledgement. */
  lemma Ends() returns (s: Story, r: nat)
    ensures s.Told() && Asked(s, r) && |s.evs| == r + 2 && s.evs[r + 1].id == 1 && Released(s.cs[r + 1], s.evs[r + 1])
  {
    var s1 := MayRelease();
    r := |s1.evs| - 1;
    s := Repeats(s1, s1.cs[r + 1]);
    StillAsked(s1, s, r);
  }

  lemma MayRelease() returns (s: Story)
    ensures s.Told() && |s.evs| > 0 && Asked(s, |s.evs| - 1)
    ensures Released(s.cs[|s.evs|], Deliver(1, ACK, DRAW)) && 1 in s.cs[|s.evs|].cfgs
  {
    var b, d;
    s, b, d := Asks();
    ReleasesIn(s.cs[|s.evs|], b, d);
  }

  ghost predicate Released(c: Cluster, ev: Event) {
    var released := Enabled(c, ev) && ReadState(7, 2) in OutputOf(c, ev).readStates;
    released
  }

  lemma ReleasesIn(c: Cluster, b: Node, d: Node)
    requires Stand(c, Trio(ASKED, b, d)) && ACK in c.net
    ensures Released(c, Deliver(1, ACK, DRAW)) && 1 in c.cfgs
  {
    Releases();
  }

  lemma Repeats(s: Story, c: Cluster) returns (s2: Story)
    requires s.Told() && c == s.cs[|s.evs|] && Enabled(c, Deliver(1, ACK, DRAW)) && 1 in c.cfgs
    ensures s2.Told() && s2.evs == s.evs + [Deliver(1, ACK, DRAW)] && s.cs <= s2.cs && s2.echo == s.echo && |s2.cs| == |s.cs| + 1
  {
    s2 := Extend(s, Deliver(1, ACK, DRAW), Next(c, Deliver(1, ACK, DRAW), false), s.echo);
  }

  lemma StillAsked(s1: Story, s: Story, r: nat)
    requires Asked(s1, r) && s.echo == s1.echo && s.evs == s1.evs + [Deliver(1, ACK, DRAW)] && s1.cs <= s.cs && |s.cs| > |s.evs|
    ensures Asked(s, r)
  {
    assert s.cs[0] == s1.cs[0] && s.cs[r] == s1.cs[r];
  }

  lemma StoryRuns(s: Story) returns (compacts: seq<bool>)
    requires s.Told()
    ensures Run(s.cs, s.evs, compacts) && OneEcho(s.cs, s.evs, s.echo)
  {
    compacts := seq(|s.evs|, i => false);
  }

  /** A run of the default configuration in which a superseded leader registers a read and releases it with an index
      behind what another node had committed before.  Only one step of the run delivers a stale echo. */
  lemma ReadsCanBeStale() returns (cs: seq<Cluster>, evs: seq<Event>, compacts: seq<bool>, e: nat, rs: ReadState, u: nat)
    ensures Run(cs, evs, compacts) && e < |evs| && Enabled(cs[e], evs[e]) && rs in OutputOf(cs[e], evs[e]).readStates
    ensures forall r: nat :: r <= e && evs[r] == ClientRead(evs[e].id, rs.id) ==> !Current(cs, r, rs.index)
    ensures u < e && Echoed(cs[u], evs[u], evs[e].id, 2, 1) && forall i :: 0 <= i <= e && i != u ==> Quiet(evs[i])
    ensures (forall i :: 0 <= i <= e ==> Drawn(evs[i])) && Defaults(cs[0])
  {
    var s, k := Ends();
    compacts := StoryRuns(s);
    cs, evs, e, rs, u := s.cs, s.evs, k + 1, ReadState(7, 2), s.echo;
    assert Ahead(cs[k]) && NodeAt(cs[k], 2).commit == 3;
  }
}
