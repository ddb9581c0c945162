/** How a concrete node, its messages and its disk represent the protocol's `World`. */
module RaftCoupling {
  import opened Prelude
  import opened RaftTypes
  import opened RaftLogs
  import opened RaftCore
  import opened RaftHost
  import opened RaftProtocol
  import opened RaftActions
  import opened RaftSafety
  import opened RaftLeading

  // ------------------------------------------------------------- logs

  /** The node's log is the part of the full log above its snapshot. */
  ghost predicate LogView(l: RaftLog, log: seq<Entry>) {
    var view := l.snapIndex <= |log| && l.snapTerm == TermAt(log, l.snapIndex) && l.entries == log[l.snapIndex..];
    view
  }

  lemma LogViewFacts(l: RaftLog, log: seq<Entry>)
    requires LogView(l, log)
    ensures l.LastIndex() == |log|
    ensures l.LastTerm() == LastTerm(log)
    ensures forall i: Index :: l.TermOf(i) == if l.snapIndex <= i <= |log| then Some(TermAt(log, i)) else None
  {}

  lemma IndexOfEntry(r: map<Term, Reign>, log: seq<Entry>, i: Index)
    requires LogOk(r, log) && i < |log|
    ensures log[i].index == i + 1
  {
    assert Sourced(r, log, i + 1);
  }

  /** No entry of any leader's log changes the configuration. */
  ghost predicate Plain(w: World) {
    forall t, i {:trigger w.reigns[t].log[i]} :: t in w.reigns && 0 <= i < |w.reigns[t].log| ==> !w.reigns[t].log[i].payload.Conf?
  }

  lemma PlainLog(w: World, log: seq<Entry>, i: Index)
    requires Plain(w) && LogOk(w.reigns, log) && i < |log|
    ensures !log[i].payload.Conf?
  {
    assert Sourced(w.reigns, log, i + 1);
    var lead := w.reigns[log[i].term].log;
    assert log[i] == log[..i + 1][i] == lead[..i + 1][i] == lead[i];
  }

  lemma {:induction false} PlainVoters(v: seq<NodeId>, es: seq<Entry>, idx: Index)
    requires forall i :: 0 <= i < |es| ==> !es[i].payload.Conf?
    ensures VotersAt(v, es, idx) == v
    decreases |es|
  {
    if es != [] { PlainVoters(v, es[1..], idx); }
  }

  // ------------------------------------------------------------- nodes

  ghost predicate Members(w: World, voters: seq<NodeId>) {
    && voters != []
    && (forall i, j :: 0 <= i < j < |voters| ==> voters[i] != voters[j])
    && (forall v :: v in voters <==> v in w.peers)
  }

  ghost predicate ViewOf(n: Node, p: Peer) {
    && n.hs == HardState(p.term, p.vote)
    && n.commit == p.commit
    && LogView(n.log, p.log)
    && n.log.snapIndex <= n.commit <= |p.log|
  }

  ghost predicate SnapshotOf(n: Node, log: seq<Entry>, voters: seq<NodeId>)
    requires n.log.snapIndex <= |log|
  {
    n.snapshot == if n.log.snapIndex == 0 then None
                  else Some(Snapshot(n.log.snapIndex, n.log.snapTerm, voters, Replay(log[..n.log.snapIndex])))
  }

  /** Every vote the candidate counts was cast for it in this term. */
  ghost predicate VotesOk(w: World, n: Node) {
    forall k :: k in n.votes && n.votes[k] && k in w.peers ==>
      n.hs.term in w.peers[k].ballots && w.peers[k].ballots[n.hs.term].cand == n.cfg.id
  }

  ghost predicate CandidateOk(w: World, n: Node)
    requires n.cfg.id in w.peers
  {
    var p := w.peers[n.cfg.id];
    && p.term in p.runs
    && p.runs[p.term] == p.log
    && (p.term in w.reigns ==> w.reigns[p.term].leader != n.cfg.id)
    && VotesOk(w, n)
  }

  /** Every match index the leader counts was acknowledged in this term. */
  ghost predicate ProgressOk(w: World, n: Node) {
    forall k :: k in n.prs ==>
      k in w.peers && k != n.cfg.id && n.prs[k].matched <= Ack(w.peers[k], n.hs.term)
  }

  ghost predicate LeaderOk(w: World, n: Node)
    requires n.cfg.id in w.peers
  {
    && Leads(w, n.cfg.id)
    && Ack(w.peers[n.cfg.id], n.hs.term) == |w.peers[n.cfg.id].log|
    && w.reigns[w.peers[n.cfg.id].term].commit <= n.commit
    && ProgressOk(w, n)
  }

  ghost predicate RoleOk(w: World, n: Node)
    requires n.cfg.id in w.peers
  {
    && (n.role == Candidate ==> CandidateOk(w, n))
    && (n.role == Leader ==> LeaderOk(w, n))
  }

  ghost predicate NodeOk(w: World, voters: seq<NodeId>, n: Node) {
    && n.cfg.id in w.peers
    && ViewOf(n, w.peers[n.cfg.id])
    && n.votersBase == voters
    && SnapshotOf(n, w.peers[n.cfg.id].log, voters)
    && RoleOk(w, n)
  }

  lemma NodeVoters(w: World, voters: seq<NodeId>, n: Node)
    requires Safe(w) && Plain(w) && NodeOk(w, voters, n)
    ensures Voters(n) == voters
  {
    var p := w.peers[n.cfg.id];
    assert PeerOk(w, p);
    forall i | 0 <= i < |n.log.entries| ensures !n.log.entries[i].payload.Conf? {
      PlainLog(w, p.log, n.log.snapIndex + i);
    }
    PlainVoters(n.votersBase, n.log.entries, n.log.LastIndex());
  }

  // ------------------------------------------------------------- messages

  ghost predicate AppendOk(w: World, t: Term, prev: Index, prevTerm: Term, es: seq<Entry>, lc: Index) {
    && t in w.reigns
    && prev + |es| <= |w.reigns[t].log|
    && prevTerm == TermAt(w.reigns[t].log, prev)
    && es == w.reigns[t].log[prev..prev + |es|]
    && lc <= |w.reigns[t].log|
    && Committed(w, w.reigns[t].log, lc, t)
  }

  ghost predicate ShippedOk(w: World, voters: seq<NodeId>, t: Term, s: Snapshot) {
    && t in w.reigns
    && 0 < s.lastIndex <= |w.reigns[t].log|
    && Committed(w, w.reigns[t].log, s.lastIndex, t)
    && s == Snapshot(s.lastIndex, TermAt(w.reigns[t].log, s.lastIndex), voters,
                     Replay(w.reigns[t].log[..s.lastIndex]))
  }

  ghost predicate MsgOk(w: World, voters: seq<NodeId>, m: Message) {
    && m.from in w.peers
    && match m.body
       case RequestVote(lli, llt) =>
         && m.term in w.peers[m.from].runs
         && lli == |w.peers[m.from].runs[m.term]|
         && llt == LastTerm(w.peers[m.from].runs[m.term])
       case RequestVoteResp(granted) =>
         granted ==> m.term in w.peers[m.from].ballots && w.peers[m.from].ballots[m.term].cand == m.to
       case AppendEntries(prev, prevTerm, es, lc, _) => AppendOk(w, m.term, prev, prevTerm, es, lc)
       case AppendEntriesResp(success, mi, _, _) => success ==> mi <= Ack(w.peers[m.from], m.term)
       case InstallSnapshot(s) => ShippedOk(w, voters, m.term, s)
       case InstallSnapshotResp(li) => li <= Ack(w.peers[m.from], m.term)
       case _ => true
  }

  // ------------------------------------------------------------- one event

  /** What is fixed while one event runs: the node, the voters, its disk and what it had applied. */
  datatype Ctx = Ctx(id: NodeId, cfg: Config, voters: seq<NodeId>, disk: Persisted, base: Index)

  /** Persisting the output so far would make the disk equal to the node. */
  ghost predicate Mirrors(d: Persisted, n: Node) {
    var mirrors := Persist(d, n.out) == Persisted(n.hs, n.log.entries, n.snapshot);
    mirrors
  }

  /** The entries emitted so far are exactly the newly committed ones, in order. */
  ghost predicate Emitted(base: Index, n: Node, log: seq<Entry>) {
    var from := if n.out.snapshot.Some? then n.out.snapshot.value.lastIndex else base;
    from <= n.commit <= |log| && n.out.committed == log[from..n.commit]
  }

  ghost predicate SentOk(w: World, voters: seq<NodeId>, ms: seq<Message>) {
    forall i :: 0 <= i < |ms| ==> MsgOk(w, voters, ms[i])
  }

  ghost predicate Going(w: World, x: Ctx, n: Node) {
    var cluster := Members(w, x.voters) && Plain(w);
    var node := n.cfg == x.cfg && x.cfg.id == x.id && NodeOk(w, x.voters, n);
    var output :=
      && SentOk(w, x.voters, n.out.messages)
      && Mirrors(x.disk, n)
      && x.id in w.peers && Emitted(x.base, n, w.peers[x.id].log);
    cluster && node && output
  }

  /** A step of node `k`: others keep their state, and only `k`'s own reigns may change. */
  ghost predicate By(w: World, w2: World, k: NodeId) {
    var others :=
      && (forall j :: j in w.peers && j != k ==> j in w2.peers && w2.peers[j] == w.peers[j])
      && (forall t :: t in w2.reigns && w2.reigns[t].leader != k ==> t in w.reigns && w2.reigns[t] == w.reigns[t]);
    Grows(w, w2) && others
  }

  lemma ByReflexive(w: World, k: NodeId)
    ensures By(w, w, k)
  {}

  lemma ByTransitive(a: World, b: World, c: World, k: NodeId)
    requires By(a, b, k) && By(b, c, k)
    ensures By(a, c, k)
  {
    GrowsTransitive(a, b, c);
  }

  // ------------------------------------------------------------- stability

  lemma AppendOkGrows(w: World, w2: World, t: Term, prev: Index, prevTerm: Term, es: seq<Entry>, lc: Index)
    requires Grows(w, w2) && AppendOk(w, t, prev, prevTerm, es, lc)
    ensures AppendOk(w2, t, prev, prevTerm, es, lc)
  {
    var a, b := w.reigns[t].log, w2.reigns[t].log;
    assert a <= b;
    assert b[prev..prev + |es|] == a[prev..prev + |es|];
    assert b[..lc] == a[..lc];
    CommittedGrows(w, w2, a, b, lc, t, t);
  }

  lemma ShippedOkGrows(w: World, w2: World, voters: seq<NodeId>, t: Term, s: Snapshot)
    requires Grows(w, w2) && ShippedOk(w, voters, t, s)
    ensures ShippedOk(w2, voters, t, s)
  {
    var a, b := w.reigns[t].log, w2.reigns[t].log;
    assert a <= b;
    assert b[..s.lastIndex] == a[..s.lastIndex];
    CommittedGrows(w, w2, a, b, s.lastIndex, t, t);
  }

  lemma MsgOkGrows(w: World, w2: World, voters: seq<NodeId>, m: Message)
    requires Grows(w, w2) && MsgOk(w, voters, m)
    ensures MsgOk(w2, voters, m)
  {
    assert PeerGrows(w.peers[m.from], w2.peers[m.from]);
    match m.body {
      case AppendEntries(prev, prevTerm, es, lc, _) => AppendOkGrows(w, w2, m.term, prev, prevTerm, es, lc);
      case InstallSnapshot(s) => ShippedOkGrows(w, w2, voters, m.term, s);
      case AppendEntriesResp(_, _, _, _) => assert Ack(w.peers[m.from], m.term) <= Ack(w2.peers[m.from], m.term);
      case InstallSnapshotResp(_) => assert Ack(w.peers[m.from], m.term) <= Ack(w2.peers[m.from], m.term);
      case _ =>
    }
  }

  lemma SentOkGrows(w: World, w2: World, voters: seq<NodeId>, ms: seq<Message>)
    requires Grows(w, w2) && SentOk(w, voters, ms)
    ensures SentOk(w2, voters, ms)
  {
    forall i | 0 <= i < |ms| ensures MsgOk(w2, voters, ms[i]) { MsgOkGrows(w, w2, voters, ms[i]); }
  }

  /** A node is not disturbed by what another node does. */
  lemma BystanderOk(w: World, w2: World, k: NodeId, voters: seq<NodeId>, n: Node)
    requires By(w, w2, k) && n.cfg.id != k && NodeOk(w, voters, n)
    ensures NodeOk(w2, voters, n)
  {
    var id := n.cfg.id;
    if n.role == Candidate {
      assert CandidateOk(w, n);
      forall j | j in n.votes && n.votes[j] && j in w2.peers
        ensures n.hs.term in w2.peers[j].ballots && w2.peers[j].ballots[n.hs.term].cand == id
      {
        assert PeerGrows(w.peers[j], w2.peers[j]);
      }
    }
    if n.role == Leader {
      assert LeaderOk(w, n);
      forall j | j in n.prs
        ensures j in w2.peers && j != id && n.prs[j].matched <= Ack(w2.peers[j], n.hs.term)
      {
        assert PeerGrows(w.peers[j], w2.peers[j]);
        assert Ack(w.peers[j], n.hs.term) <= Ack(w2.peers[j], n.hs.term);
      }
    }
  }
}
