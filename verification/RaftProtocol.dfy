/** The safety argument of Raft (sections 5.2 to 5.4 and 7 of the extended Raft paper).

    A `World` records, for every node, its durable term, vote and *full* log (the log
    from index 1, snapshots included) together with what the node has ever promised:
    the votes it cast, the elections it started and the match indexes it acknowledged,
    each by term.  `terms` holds the log of each elected leader, which only grows.

    Every event of the concrete node is a short sequence of the actions below, and
    `Safe` is what each of them keeps. */
module RaftProtocol {
  import opened Prelude
  import opened RaftTypes

  /** A vote cast in some term, with the voter's log at that moment. */
  datatype Ballot = Ballot(cand: NodeId, log: seq<Entry>)

  datatype Peer = Peer(
    term: Term,
    vote: Option<NodeId>,
    log: seq<Entry>,
    commit: Index,
    ballots: map<Term, Ballot>,        // every vote this node ever cast
    runs: map<Term, seq<Entry>>,       // its log at the start of each election it started
    acks: map<Term, Index>)            // highest match index it acknowledged in each term

  /** The reign of one elected leader: its log and the highest index it committed itself. */
  datatype Reign = Reign(leader: NodeId, log: seq<Entry>, commit: Index)

  datatype World = World(peers: map<NodeId, Peer>, reigns: map<Term, Reign>)

  // ------------------------------------------------------------- logs

  /** The term of entry `i` (1-based); index 0 stands before the log and has term 0. */
  function TermAt(log: seq<Entry>, i: Index): Term
    requires i <= |log|
  {
    if i == 0 then 0 else log[i - 1].term
  }

  function LastTerm(log: seq<Entry>): Term { TermAt(log, |log|) }

  /** Section 5.4.1 of the Raft paper: log `a` is at least as up to date as log `b`. */
  predicate UpToDate(a: seq<Entry>, b: seq<Entry>) {
    LastTerm(a) > LastTerm(b) || (LastTerm(a) == LastTerm(b) && |a| >= |b|)
  }

  /** Both logs reach index `m` and are the same up to there. */
  predicate Agree(a: seq<Entry>, b: seq<Entry>, m: Index) {
    m <= |a| && m <= |b| && a[..m] == b[..m]
  }

  /** Entry `i` was written by the leader of its own term, and everything before it
      is what that leader had before it. */
  ghost predicate Sourced(r: map<Term, Reign>, log: seq<Entry>, i: Index)
    requires 0 < i <= |log|
  {
    && log[i - 1].index == i
    && log[i - 1].term in r
    && Agree(log, r[log[i - 1].term].log, i)
  }

  ghost predicate LogOk(r: map<Term, Reign>, log: seq<Entry>) {
    forall i :: 0 < i <= |log| ==> Sourced(r, log, i)
  }

  ghost predicate TermsBelow(log: seq<Entry>, bound: Term) {
    forall i :: 0 <= i < |log| ==> 0 < log[i].term < bound
  }

  // ------------------------------------------------------------- quorums

  predicate Quorum(v: set<NodeId>, q: set<NodeId>) { q <= v && 2 * |q| > |v| }

  lemma QuorumsMeet(v: set<NodeId>, p: set<NodeId>, q: set<NodeId>) returns (n: NodeId)
    requires Quorum(v, p) && Quorum(v, q)
    ensures n in p && n in q && n in v
  {
    if p * q == {} {
      assert |p + q| == |p| + |q|;
      SubsetSize(p + q, v);
      assert false;
    }
    n :| n in p * q;
  }

  lemma {:induction false} SubsetSize(a: set<NodeId>, b: set<NodeId>)
    requires a <= b
    ensures |a| <= |b|
  {
    assert b == a + (b - a);
    assert |a + (b - a)| == |a| + |b - a|;
  }

  function Ack(p: Peer, t: Term): Index { if t in p.acks then p.acks[t] else 0 }

  ghost predicate AckedBy(w: World, t: Term, m: Index, q: set<NodeId>) {
    Quorum(w.peers.Keys, q) && forall n :: n in q ==> Ack(w.peers[n], t) >= m
  }

  /** A quorum has acknowledged the term-`t` leader's log through `m`. */
  ghost predicate Chosen(w: World, t: Term, m: Index) {
    exists q :: AckedBy(w, t, m, q)
  }

  /** The node acknowledged `m` in term `t`, or could still do so. */
  predicate MayAck(p: Peer, t: Term, m: Index) { Ack(p, t) >= m || p.term <= t }

  ghost predicate MayAckBy(w: World, t: Term, m: Index, q: set<NodeId>) {
    Quorum(w.peers.Keys, q) && forall n :: n in q ==> MayAck(w.peers[n], t, m)
  }

  ghost predicate Choosable(w: World, t: Term, m: Index) {
    exists q :: MayAckBy(w, t, m, q)
  }

  /** Index `m` of the term-`t` leader's log holds an entry of term `t` itself (section 5.4.2 of the Raft paper). */
  predicate Own(w: World, t: Term, m: Index) {
    t in w.reigns && 0 < m <= |w.reigns[t].log| && w.reigns[t].log[m - 1].term == t
  }

  /** `log[..c]` was committed by some leader of a term at most `bound`. */
  ghost predicate CommittedBy(w: World, log: seq<Entry>, c: Index, t: Term) {
    t in w.reigns && c <= w.reigns[t].commit && Agree(log, w.reigns[t].log, c)
  }

  ghost predicate Committed(w: World, log: seq<Entry>, c: Index, bound: Term) {
    c == 0 || exists t: Term :: t <= bound && CommittedBy(w, log, c, t)
  }

  // ------------------------------------------------------------- invariants

  ghost predicate PeerOk(w: World, p: Peer) {
    && LogOk(w.reigns, p.log)
    && TermsBelow(p.log, p.term + 1)
    && p.commit <= |p.log|
    && Committed(w, p.log, p.commit, p.term)
    && (p.vote.Some? <==> p.term in p.ballots)
    && (p.vote.Some? ==> p.ballots[p.term].cand == p.vote.value)
  }

  ghost predicate VotersOf(w: World, t: Term, q: set<NodeId>) {
    && Quorum(w.peers.Keys, q)
    && t in w.reigns
    && forall n :: n in q ==> t in w.peers[n].ballots && w.peers[n].ballots[t].cand == w.reigns[t].leader
  }

  ghost predicate HasVoters(w: World, t: Term) { exists q :: VotersOf(w, t, q) }

  ghost predicate ReignOk(w: World, t: Term) {
    t in w.reigns ==>
      var r := w.reigns[t];
      && LogOk(w.reigns, r.log)
      && TermsBelow(r.log, t + 1)
      && HasVoters(w, t)
      && (r.commit > 0 ==> Own(w, t, r.commit) && Chosen(w, t, r.commit))
      && r.leader in w.peers
      && t in w.peers[r.leader].runs
  }

  ghost predicate BallotOk(w: World, p: Peer, t: Term) {
    t in p.ballots ==>
      var b := p.ballots[t];
      && t <= p.term
      && LogOk(w.reigns, b.log)
      && b.cand in w.peers
      && t in w.peers[b.cand].runs
      && UpToDate(w.peers[b.cand].runs[t], b.log)
  }

  ghost predicate RunOk(w: World, p: Peer, t: Term) {
    t in p.runs ==>
      && 0 < t <= p.term
      && LogOk(w.reigns, p.runs[t])
      && TermsBelow(p.runs[t], t)
  }

  /** An acknowledgement of the current term is still true of the log. */
  ghost predicate AckOk(w: World, p: Peer, t: Term) {
    t in p.acks ==>
      && t <= p.term
      && t in w.reigns
      && p.acks[t] <= |w.reigns[t].log|
      && (t == p.term ==> Agree(p.log, w.reigns[t].log, p.acks[t]))
  }

  /** An acknowledgement of an earlier term that may matter for a commit survives in `log`. */
  ghost predicate Retains(w: World, p: Peer, log: seq<Entry>, t: Term, m: Index) {
    Own(w, t, m) && m <= Ack(p, t) && Choosable(w, t, m) ==> Agree(log, w.reigns[t].log, m)
  }

  ghost predicate RetainsAll(w: World, p: Peer) {
    && (forall t: Term, m: Index :: t < p.term ==> Retains(w, p, p.log, t, m))
    && (forall u: Term, t: Term, m: Index :: u in p.ballots && t < u ==> Retains(w, p, p.ballots[u].log, t, m))
  }

  /** A later leader holds everything an earlier leader has committed or still may commit. */
  ghost predicate Complete(w: World, t: Term, m: Index, u: Term) {
    t < u && u in w.reigns && Own(w, t, m) && Choosable(w, t, m) ==>
      Agree(w.reigns[u].log, w.reigns[t].log, m)
  }

  ghost predicate AllComplete(w: World) {
    forall t, m, u :: Complete(w, t, m, u)
  }

  ghost predicate PeersOk(w: World) {
    forall n {:trigger PeerOk(w, w.peers[n])} :: n in w.peers ==> PeerOk(w, w.peers[n])
  }

  ghost predicate ReignsOk(w: World) {
    forall t :: ReignOk(w, t)
  }

  ghost predicate PromisesOk(w: World) {
    forall n, t :: n in w.peers ==>
      BallotOk(w, w.peers[n], t) && RunOk(w, w.peers[n], t) && AckOk(w, w.peers[n], t)
  }

  ghost predicate Retained(w: World) {
    forall n {:trigger RetainsAll(w, w.peers[n])} :: n in w.peers ==> RetainsAll(w, w.peers[n])
  }

  ghost predicate Safe(w: World) {
    var safe := PeersOk(w) && ReignsOk(w) && PromisesOk(w) && Retained(w) && AllComplete(w);
    safe
  }
}
