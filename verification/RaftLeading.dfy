/** The actions of leaders and winning candidates keep `Safe`. */
module RaftLeading {
  import opened Prelude
  import opened RaftTypes
  import opened RaftProtocol
  import opened RaftActions
  import opened RaftSafety

  /** Entries that became the leader's own in this step are held by all later leaders. */
  ghost predicate NewEntriesComplete(w: World, w2: World, t: Term) {
    forall m: Index, u: Term {:trigger Complete(w2, t, m, u)} ::
      Own(w2, t, m) && !Own(w, t, m) ==> Complete(w2, t, m, u)
  }

  ghost predicate NewLeaderComplete(w: World, t: Term) {
    forall s: Term, m: Index :: Complete(w, s, m, t)
  }

  ghost predicate OnlyReign(w: World, w2: World, t: Term) {
    forall u :: u in w2.reigns && u != t ==> u in w.reigns && w2.reigns[u] == w.reigns[u]
  }

  lemma CompleteStep(w: World, w2: World, t: Term)
    requires AllComplete(w) && Grows(w, w2) && OnlyReign(w, w2, t)
    requires NewEntriesComplete(w, w2, t)
    requires t !in w.reigns ==> NewLeaderComplete(w2, t)
    ensures AllComplete(w2)
  {
    forall s, m, u ensures Complete(w2, s, m, u) {
      assert Complete(w, s, m, u);
      if u in w.reigns && (Own(w2, s, m) ==> Own(w, s, m)) { CompleteKept(w, w2, s, m, u); }
    }
  }

  lemma ReignsStep(w: World, w2: World, t: Term)
    requires ReignsOk(w) && Grows(w, w2) && OnlyReign(w, w2, t) && ReignOk(w2, t)
    ensures ReignsOk(w2)
  {
    forall u ensures ReignOk(w2, u) {
      if u in w2.reigns && u != t { OldReign(w, w2, u); }
    }
  }

  lemma OldReign(w: World, w2: World, u: Term)
    requires ReignsOk(w) && Grows(w, w2) && u in w.reigns && u in w2.reigns && w2.reigns[u] == w.reigns[u]
    ensures ReignOk(w2, u)
  {
    assert ReignOk(w, u);
    ReignKept(w, w2, u);
  }

  // ------------------------------------------------------------- committing

  ghost predicate Leads(w: World, n: NodeId) {
    var leads := n in w.peers && w.peers[n].term in w.reigns && w.reigns[w.peers[n].term].leader == n && w.reigns[w.peers[n].term].log == w.peers[n].log;
    leads
  }

  lemma LeaderCommitSafe(w: World, n: NodeId, c: Index)
    requires Safe(w) && Leads(w, n)
    requires Own(w, w.peers[n].term, c) && Chosen(w, w.peers[n].term, c)
    requires w.reigns[w.peers[n].term].commit <= c
    ensures Grows(w, LeaderCommit(w, n, c)) && Safe(LeaderCommit(w, n, c)) && Leads(LeaderCommit(w, n, c), n)
  {
    LeaderCommitPeers(w, n, c);
    LeaderCommitReigns(w, n, c);
  }

  lemma LeaderCommitPeers(w: World, n: NodeId, c: Index)
    requires Safe(w) && Leads(w, n) && Own(w, w.peers[n].term, c) && w.reigns[w.peers[n].term].commit <= c
    ensures var w2 := LeaderCommit(w, n, c);
            Grows(w, w2) && PeersOk(w2) && PromisesOk(w2) && Retained(w2)
  {
    LeaderCommitPeer(w, n, c);
    OthersKept(w, LeaderCommit(w, n, c), n);
  }

  lemma LeaderCommitReigns(w: World, n: NodeId, c: Index)
    requires Safe(w) && Leads(w, n) && Own(w, w.peers[n].term, c) && Chosen(w, w.peers[n].term, c)
    requires w.reigns[w.peers[n].term].commit <= c && Grows(w, LeaderCommit(w, n, c))
    ensures ReignsOk(LeaderCommit(w, n, c)) && AllComplete(LeaderCommit(w, n, c))
  {
    var w2, t := LeaderCommit(w, n, c), w.peers[n].term;
    LeaderCommitReign(w, n, c);
    ReignsStep(w, w2, t);
    CompleteStep(w, w2, t);
  }

  lemma LeaderCommitPeer(w: World, n: NodeId, c: Index)
    requires Safe(w) && Leads(w, n)
    requires Own(w, w.peers[n].term, c)
    requires w.reigns[w.peers[n].term].commit <= c
    ensures Grows(w, LeaderCommit(w, n, c)) && PeerSafe(LeaderCommit(w, n, c), LeaderCommit(w, n, c).peers[n])
  {
    var w2 := LeaderCommit(w, n, c);
    var p, p2, t := w.peers[n], w2.peers[n], w.peers[n].term;
    SafePeer(w, n);
    SameAcks(p, p2);
    assert Grows(w, w2) by { assert PeerGrows(p, p2); }
    PromisesKept(w, w2, p);
    assert PeerOk(w2, p2) by {
      LogOkGrows(w.reigns, w2.reigns, p.log);
      assert CommittedBy(w2, p.log, c, t);
    }
    forall u ensures BallotOk(w2, p2, u) && RunOk(w2, p2, u) && AckOk(w2, p2, u) {
      assert BallotOk(w2, p, u) && RunOk(w2, p, u) && AckOk(w2, p, u);
    }
    BallotsPast(w, p);
    SameRetention(w, w2, p, p2);
  }

  lemma LeaderCommitReign(w: World, n: NodeId, c: Index)
    requires Safe(w) && Leads(w, n)
    requires Own(w, w.peers[n].term, c) && Chosen(w, w.peers[n].term, c)
    requires Grows(w, LeaderCommit(w, n, c))
    ensures ReignOk(LeaderCommit(w, n, c), w.peers[n].term)
  {
    var w2, t := LeaderCommit(w, n, c), w.peers[n].term;
    assert ReignOk(w, t);
    LogOkGrows(w.reigns, w2.reigns, w.reigns[t].log);
    var q :| VotersOf(w, t, q);
    VotersKept(w, w2, t, q);
    ChosenGrows(w, w2, t, c);
  }

  // ------------------------------------------------------------- appending

  ghost predicate CanExtend(w: World, n: NodeId, e: Entry) {
    Safe(w) && Leads(w, n) && e.term == w.peers[n].term && e.index == |w.peers[n].log| + 1
  }

  lemma ExtendSafe(w: World, n: NodeId, e: Entry)
    requires CanExtend(w, n, e)
    ensures Grows(w, Extend(w, n, e)) && Safe(Extend(w, n, e)) && Leads(Extend(w, n, e), n)
  {
    var w2 := Extend(w, n, e);
    ExtendGrows(w, n, e);
    ExtendPeerOk(w, n, e);
    ExtendPromises(w, n, e);
    ExtendRetains(w, n, e);
    OthersKept(w, w2, n);
    ExtendReign(w, n, e);
    ReignsStep(w, w2, e.term);
    assert NewEntriesComplete(w, w2, e.term) by {
      forall m: Index, u: Term | Own(w2, e.term, m) && !Own(w, e.term, m) ensures Complete(w2, e.term, m, u) {
        if e.term < u && u in w.reigns { NewEntryNotChoosable(w, n, e, m, u); }
      }
    }
    CompleteStep(w, w2, e.term);
  }

  lemma ExtendGrows(w: World, n: NodeId, e: Entry)
    requires CanExtend(w, n, e)
    ensures Grows(w, Extend(w, n, e))
  {
    var w2 := Extend(w, n, e);
    var p, p2 := w.peers[n], w2.peers[n];
    assert AckOk(w, p, e.term);
    assert PeerGrows(p, p2) by {
      forall t: Term ensures Ack(p, t) <= Ack(p2, t) {}
      forall t: Term | t < p.term ensures Ack(p, t) == Ack(p2, t) {}
    }
  }

  lemma ExtendedLogOk(w: World, n: NodeId, e: Entry)
    requires CanExtend(w, n, e)
    ensures LogOk(Extend(w, n, e).reigns, w.peers[n].log + [e])
    ensures TermsBelow(w.peers[n].log + [e], e.term + 1)
  {
    var w2, p := Extend(w, n, e), w.peers[n];
    ExtendGrows(w, n, e);
    assert PeerOk(w, p) && RunOk(w, p, e.term);
    assert ReignOk(w, e.term);
    LogOkGrows(w.reigns, w2.reigns, p.log);
    LogOkPush(w2.reigns, p.log, e);
  }

  lemma LogOkPush(r: map<Term, Reign>, log: seq<Entry>, e: Entry)
    requires LogOk(r, log) && e.index == |log| + 1 && e.term in r && r[e.term].log == log + [e]
    ensures LogOk(r, log + [e])
  {
    var log2 := log + [e];
    forall i | 0 < i <= |log2| ensures Sourced(r, log2, i) {
      if i <= |log| {
        assert Sourced(r, log, i);
        assert log2[..i] == log[..i];
      }
    }
  }

  lemma ExtendReign(w: World, n: NodeId, e: Entry)
    requires CanExtend(w, n, e)
    ensures ReignOk(Extend(w, n, e), e.term)
  {
    var w2, t := Extend(w, n, e), e.term;
    ExtendGrows(w, n, e);
    ExtendedLogOk(w, n, e);
    assert ReignOk(w, t);
    var q :| VotersOf(w, t, q);
    VotersKept(w, w2, t, q);
    if w.reigns[t].commit > 0 { ChosenGrows(w, w2, t, w.reigns[t].commit); }
  }

  lemma ExtendPeerOk(w: World, n: NodeId, e: Entry)
    requires CanExtend(w, n, e)
    ensures PeerOk(Extend(w, n, e), Extend(w, n, e).peers[n])
  {
    var w2 := Extend(w, n, e);
    var p, p2 := w.peers[n], w2.peers[n];
    ExtendGrows(w, n, e);
    ExtendedLogOk(w, n, e);
    assert PeerOk(w, p);
    assert p2.log[..p.commit] == p.log[..p.commit];
    CommittedGrows(w, w2, p.log, p2.log, p.commit, p.term, p.term);
  }

  lemma ExtendPromises(w: World, n: NodeId, e: Entry)
    requires CanExtend(w, n, e)
    ensures PeerPromises(Extend(w, n, e), Extend(w, n, e).peers[n])
  {
    var w2 := Extend(w, n, e);
    var p, p2 := w.peers[n], w2.peers[n];
    ExtendGrows(w, n, e);
    forall t ensures BallotOk(w2, p2, t) && RunOk(w2, p2, t) && AckOk(w2, p2, t) {
      assert BallotOk(w, p, t) && RunOk(w, p, t) && AckOk(w, p, t);
      BallotKept(w, w2, p, t);
      RunKept(w, w2, p, t);
      AckKept(w, w2, p, t);
    }
  }

  lemma ExtendRetains(w: World, n: NodeId, e: Entry)
    requires CanExtend(w, n, e)
    ensures RetainsAll(Extend(w, n, e), Extend(w, n, e).peers[n])
  {
    var w2 := Extend(w, n, e);
    var p, p2 := w.peers[n], w2.peers[n];
    ExtendGrows(w, n, e);
    SafePeer(w, n);
    BallotsPast(w, p);
    assert forall t: Term :: t < p.term ==> Ack(p, t) == Ack(p2, t);
    BallotsRetainMoved(w, w2, p, p2);
    LogRetainsMoved(w, w2, p, p2, p.log, p.term);
    forall t: Term, m: Index | t < p2.term ensures Retains(w2, p2, p2.log, t, m) {
      assert Retains(w2, p2, p.log, t, m);
      if Own(w2, t, m) && m <= Ack(p2, t) && Choosable(w2, t, m) {
        assert p2.log[..m] == p.log[..m];
      }
    }
    RetainsAllFrom(w2, p2);
  }

  /** Nobody who elected a later leader can acknowledge an entry appended afterwards. */
  lemma NewEntryNotChoosable(w: World, n: NodeId, e: Entry, m: Index, u: Term)
    requires CanExtend(w, n, e) && Own(Extend(w, n, e), e.term, m) && !Own(w, e.term, m)
    requires e.term < u && u in w.reigns
    ensures !Choosable(Extend(w, n, e), e.term, m)
  {
    var w2, t := Extend(w, n, e), e.term;
    assert ReignOk(w, u);
    var q :| VotersOf(w, u, q);
    forall q2 ensures !MayAckBy(w2, t, m, q2) {
      if Quorum(w2.peers.Keys, q2) {
        var k := QuorumsMeet(w.peers.Keys, q, q2);
        assert BallotOk(w, w.peers[k], u) && AckOk(w, w.peers[k], t);
        assert !MayAck(w2.peers[k], t, m);
      }
    }
  }

  // ------------------------------------------------------------- winning an election

  ghost predicate Elected(w: World, n: NodeId, u: Term, q: set<NodeId>) {
    && Quorum(w.peers.Keys, q)
    && forall k :: k in q ==> u in w.peers[k].ballots && w.peers[k].ballots[u].cand == n
  }

  ghost predicate Wins(w: World, n: NodeId, q: set<NodeId>) {
    && Safe(w) && n in w.peers
    && Elected(w, n, w.peers[n].term, q)
    && w.peers[n].term !in w.reigns
    && w.peers[n].term in w.peers[n].runs
    && w.peers[n].runs[w.peers[n].term] == w.peers[n].log
  }

  /** Election safety (section 5.2 of the Raft paper): two quorums of one term elected the same candidate. */
  lemma OneLeaderPerTerm(w: World, t: Term, n: NodeId, q: set<NodeId>)
    requires Safe(w) && t in w.reigns && Elected(w, n, t, q)
    ensures w.reigns[t].leader == n
  {
    assert ReignOk(w, t);
    var q2 :| VotersOf(w, t, q2);
    var k := QuorumsMeet(w.peers.Keys, q, q2);
  }

  /** The winner's log holds every entry of an earlier term that can still be committed. */
  lemma WinnerComplete(w: World, n: NodeId, q: set<NodeId>, t: Term, m: Index)
    requires Wins(w, n, q) && t < w.peers[n].term && Own(w, t, m) && Choosable(w, t, m)
    ensures Agree(w.peers[n].log, w.reigns[t].log, m)
  {
    var u := w.peers[n].term;
    var q2 :| MayAckBy(w, t, m, q2);
    var k := QuorumsMeet(w.peers.Keys, q, q2);
    var b := w.peers[k].ballots[u];
    assert BallotOk(w, w.peers[k], u) && MayAck(w.peers[k], t, m) && RetainsAll(w, w.peers[k]);
    assert Retains(w, w.peers[k], b.log, t, m);
    assert RunOk(w, w.peers[n], u);
    UpToDateHolds(w, w.peers[n].log, b.log, u, t, m);
  }

  lemma UpToDateHolds(w: World, log: seq<Entry>, voter: seq<Entry>, u: Term, t: Term, m: Index)
    requires Safe(w) && LogOk(w.reigns, log) && LogOk(w.reigns, voter) && TermsBelow(log, u)
    requires UpToDate(log, voter) && t < u && Own(w, t, m) && Choosable(w, t, m)
    requires Agree(voter, w.reigns[t].log, m)
    ensures Agree(log, w.reigns[t].log, m)
  {
    var lead := w.reigns[t].log;
    assert voter[m - 1] == voter[..m][m - 1] == lead[..m][m - 1] == lead[m - 1];
    TermsAscend(w, voter, m, |voter|);
    var x := LastTerm(log);
    assert Sourced(w.reigns, log, |log|);
    if x == LastTerm(voter) {
      assert Sourced(w.reigns, voter, |voter|);
      assert log[..m] == log[..|log|][..m] == w.reigns[x].log[..m] == voter[..|voter|][..m];
    } else {
      assert Complete(w, t, m, x);
      LaterLeaderLonger(w, log, x, t, m);
      assert log[..m] == log[..|log|][..m] == w.reigns[x].log[..m];
    }
  }

  lemma LaterLeaderLonger(w: World, log: seq<Entry>, x: Term, t: Term, m: Index)
    requires Safe(w) && t < x && x in w.reigns && t in w.reigns && Agree(w.reigns[x].log, w.reigns[t].log, m)
    requires |log| > 0 && log[|log| - 1].term == x && Agree(log, w.reigns[x].log, |log|)
    ensures m <= |log|
  {
    var i := |log| - 1;
    assert ReignOk(w, t);
    assert log[i] == log[..|log|][i] == w.reigns[x].log[..|log|][i];
    forall j | 0 <= j < m ensures w.reigns[x].log[j].term <= t {
      assert w.reigns[x].log[j] == w.reigns[x].log[..m][j] == w.reigns[t].log[..m][j];
    }
  }

  lemma ElectSafe(w: World, n: NodeId, q: set<NodeId>)
    requires Wins(w, n, q)
    ensures Grows(w, Elect(w, n)) && Safe(Elect(w, n)) && Leads(Elect(w, n), n)
  {
    var w2, u := Elect(w, n), w.peers[n].term;
    ElectGrows(w, n, q);
    ElectPeer(w, n, q);
    OthersKept(w, w2, n);
    ElectReign(w, n, q);
    ElectComplete(w, n, q);
  }

  lemma WinnerClaims(w: World, n: NodeId, q: set<NodeId>, s: Term, m: Index)
    requires Wins(w, n, q) && Grows(w, Elect(w, n))
    ensures Complete(Elect(w, n), s, m, w.peers[n].term)
  {
    var w2, u := Elect(w, n), w.peers[n].term;
    if s < u && Own(w2, s, m) && Choosable(w2, s, m) {
      ChoosableShrinks(w, w2, s, m);
      WinnerComplete(w, n, q, s, m);
    }
  }

  lemma ElectComplete(w: World, n: NodeId, q: set<NodeId>)
    requires Wins(w, n, q) && Grows(w, Elect(w, n))
    ensures AllComplete(Elect(w, n))
  {
    var w2, u := Elect(w, n), w.peers[n].term;
    forall s: Term, m: Index ensures Complete(w2, s, m, u) {
      WinnerClaims(w, n, q, s, m);
    }
    assert NewEntriesComplete(w, w2, u) by { assert RunOk(w, w.peers[n], u); }
    CompleteStep(w, w2, u);
  }

  lemma ElectGrows(w: World, n: NodeId, q: set<NodeId>)
    requires Wins(w, n, q)
    ensures Grows(w, Elect(w, n))
  {
    var w2 := Elect(w, n);
    var p, p2 := w.peers[n], w2.peers[n];
    assert AckOk(w, p, p.term);
    assert PeerGrows(p, p2) by {
      forall t: Term ensures Ack(p, t) <= Ack(p2, t) {}
      forall t: Term | t < p.term ensures Ack(p, t) == Ack(p2, t) {}
    }
  }

  lemma ElectReign(w: World, n: NodeId, q: set<NodeId>)
    requires Wins(w, n, q)
    ensures ReignsOk(Elect(w, n))
  {
    var w2, u := Elect(w, n), w.peers[n].term;
    ElectGrows(w, n, q);
    assert PeerOk(w, w.peers[n]);
    LogOkGrows(w.reigns, w2.reigns, w.peers[n].log);
    forall k | k in q ensures u in w2.peers[k].ballots && w2.peers[k].ballots[u].cand == n {}
    assert VotersOf(w2, u, q);
    ReignsStep(w, w2, u);
  }

  lemma ElectPeer(w: World, n: NodeId, q: set<NodeId>)
    requires Wins(w, n, q)
    ensures PeerSafe(Elect(w, n), Elect(w, n).peers[n])
  {
    var w2 := Elect(w, n);
    var p, p2 := w.peers[n], w2.peers[n];
    ElectGrows(w, n, q);
    SafePeer(w, n);
    PromisesKept(w, w2, p);
    PeerOkKept(w, w2, p);
    assert PeerOk(w2, p2);
    forall t ensures BallotOk(w2, p2, t) && RunOk(w2, p2, t) && AckOk(w2, p2, t) {
      assert BallotOk(w2, p, t) && RunOk(w2, p, t) && AckOk(w2, p, t);
    }
    BallotsPast(w, p);
    SameRetention(w, w2, p, p2);
  }
}
