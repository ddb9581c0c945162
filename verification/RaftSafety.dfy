/** Each protocol action keeps `Safe`, and what `Safe` means for committed entries. */
module RaftSafety {
  import opened Prelude
  import opened RaftTypes
  import opened RaftProtocol
  import opened RaftActions

  // ------------------------------------------------------------- consequences

  /** Leader completeness: what a leader committed, every later leader holds. */
  lemma LeaderCompleteness(w: World, t: Term, u: Term)
    requires Safe(w) && t in w.reigns && u in w.reigns && t <= u
    ensures Agree(w.reigns[u].log, w.reigns[t].log, w.reigns[t].commit)
  {
    assert ReignOk(w, t) && ReignOk(w, u);
    var m := w.reigns[t].commit;
    if t < u && m > 0 {
      ChosenIsChoosable(w, t, m);
      assert Complete(w, t, m, u);
    }
  }

  /** A log prefix committed at or below term `u` is a prefix of the term-`u` leader's log. */
  lemma CommittedInReign(w: World, log: seq<Entry>, c: Index, u: Term)
    requires Safe(w) && u in w.reigns && c <= |log| && Committed(w, log, c, u)
    ensures Agree(log, w.reigns[u].log, c)
  {
    if c > 0 {
      var t: Term :| t <= u && CommittedBy(w, log, c, t);
      LeaderCompleteness(w, t, u);
      var m := w.reigns[t].commit;
      assert w.reigns[u].log[..m][..c] == w.reigns[t].log[..m][..c];
    }
  }

  /** Any two committed prefixes agree wherever both are defined. */
  lemma CommittedPrefixesAgree(w: World, a: seq<Entry>, ca: Index, ba: Term, b: seq<Entry>, cb: Index, bb: Term)
    requires Safe(w) && ca <= |a| && cb <= |b|
    requires Committed(w, a, ca, ba) && Committed(w, b, cb, bb)
    ensures Agree(a, b, Min(ca, cb))
  {
    if ca > 0 && cb > 0 {
      var ta: Term :| ta <= ba && CommittedBy(w, a, ca, ta);
      var tb: Term :| tb <= bb && CommittedBy(w, b, cb, tb);
      var u := Max(ta, tb);
      assert Committed(w, a, ca, u) && Committed(w, b, cb, u);
      CommittedInReign(w, a, ca, u);
      CommittedInReign(w, b, cb, u);
      var m := Min(ca, cb);
      assert a[..m] == a[..ca][..m] && b[..m] == b[..cb][..m];
    }
  }

  lemma CommittedShorter(w: World, log: seq<Entry>, c: Index, c2: Index, b: Term)
    requires Committed(w, log, c, b) && c2 <= c
    ensures Committed(w, log, c2, b)
  {
    if c2 > 0 {
      var t: Term :| t <= b && CommittedBy(w, log, c, t);
      assert log[..c2] == log[..c][..c2];
      assert CommittedBy(w, log, c2, t);
    }
  }

  /** Log matching: logs whose entries at `i` carry the same term are the same through `i`. */
  lemma LogMatching(r: map<Term, Reign>, a: seq<Entry>, b: seq<Entry>, i: Index)
    requires LogOk(r, a) && LogOk(r, b) && i <= |a| && i <= |b| && TermAt(a, i) == TermAt(b, i)
    ensures Agree(a, b, i)
  {
    if i > 0 { assert Sourced(r, a, i) && Sourced(r, b, i); }
  }

  /** Terms never decrease along a log. */
  lemma TermsAscend(w: World, log: seq<Entry>, i: Index, j: Index)
    requires ReignsOk(w) && LogOk(w.reigns, log) && 0 < i <= j <= |log|
    ensures log[i - 1].term <= log[j - 1].term
  {
    assert Sourced(w.reigns, log, j);
    var t := log[j - 1].term;
    assert ReignOk(w, t);
    assert log[i - 1] == log[..j][i - 1] == w.reigns[t].log[..j][i - 1] == w.reigns[t].log[i - 1];
  }

  /** A node holds, in its leader's log, everything it believes committed. */
  lemma CommitInOwnReign(w: World, n: NodeId)
    requires Safe(w) && n in w.peers && w.peers[n].term in w.reigns
    ensures Agree(w.peers[n].log, w.reigns[w.peers[n].term].log, w.peers[n].commit)
  {
    var p := w.peers[n];
    assert PeerOk(w, p);
    CommittedInReign(w, p.log, p.commit, p.term);
  }

  // ------------------------------------------------------------- terms and votes

  lemma NewTermRetains(w: World, p: Peer, u: Term, t: Term, m: Index)
    requires PeerPromises(w, p) && RetainsAll(w, p) && p.term < u && t < u
    ensures Retains(w, p, p.log, t, m)
  {
    assert AckOk(w, p, t);
    if t < p.term {
      assert Retains(w, p, p.log, t, m);
    } else if m <= Ack(p, t) && Own(w, t, m) {
      assert t in p.acks && t == p.term;
      var a := p.acks[t];
      assert p.log[..m] == p.log[..a][..m] == w.reigns[t].log[..a][..m] == w.reigns[t].log[..m];
    }
  }

  /** The same promises, read of the world after a step and of a peer whose acknowledgements did not change. */
  lemma RetainsMoved(w: World, w2: World, p: Peer, p2: Peer, log: seq<Entry>, t: Term, m: Index)
    requires Grows(w, w2) && AckOk(w, p, t) && Retains(w, p, log, t, m)
    requires Ack(p, t) == Ack(p2, t)
    ensures Retains(w2, p2, log, t, m)
  {
    RetainsKept(w, w2, p, log, t, m);
  }

  ghost predicate LogRetains(w: World, p: Peer, log: seq<Entry>, bound: Term) {
    forall t: Term, m: Index :: t < bound ==> Retains(w, p, log, t, m)
  }

  lemma LogRetainsMoved(w: World, w2: World, p: Peer, p2: Peer, log: seq<Entry>, bound: Term)
    requires Grows(w, w2) && LogRetains(w, p, log, bound)
    requires forall t: Term :: t < bound ==> AckOk(w, p, t) && Ack(p, t) == Ack(p2, t)
    ensures LogRetains(w2, p2, log, bound)
  {
    forall t: Term, m: Index | t < bound ensures Retains(w2, p2, log, t, m) {
      assert Retains(w, p, log, t, m);
      RetainsMoved(w, w2, p, p2, log, t, m);
    }
  }

  lemma BallotsRetainMoved(w: World, w2: World, p: Peer, p2: Peer)
    requires Grows(w, w2) && RetainsAll(w, p)
    requires forall t: Term :: t in p.ballots ==> t <= p.term
    requires forall t: Term :: t < p.term ==> AckOk(w, p, t) && Ack(p, t) == Ack(p2, t)
    ensures forall u :: u in p.ballots ==> LogRetains(w2, p2, p.ballots[u].log, u)
  {
    forall u | u in p.ballots ensures LogRetains(w2, p2, p.ballots[u].log, u) {
      LogRetainsMoved(w, w2, p, p2, p.ballots[u].log, u);
    }
  }

  lemma RetainsAllFrom(w: World, p: Peer)
    requires LogRetains(w, p, p.log, p.term)
    requires forall u :: u in p.ballots ==> LogRetains(w, p, p.ballots[u].log, u)
    ensures RetainsAll(w, p)
  {}

  lemma BallotsPast(w: World, p: Peer)
    requires PeerPromises(w, p)
    ensures forall t: Term :: t in p.ballots ==> t <= p.term
  {
    forall t | t in p.ballots ensures t <= p.term { assert BallotOk(w, p, t); }
  }

  /** A node that moved to term `u`, casting at most a ballot there with its present log. */
  lemma TermChangeRetains(w: World, w2: World, p: Peer, p2: Peer)
    requires Grows(w, w2) && PeerPromises(w, p) && RetainsAll(w, p)
    requires p2.acks == p.acks && p2.log == p.log && p.term <= p2.term
    requires forall t :: t in p2.ballots ==>
               (t in p.ballots && p2.ballots[t] == p.ballots[t]) || (t == p2.term && p2.ballots[t].log == p.log)
    ensures RetainsAll(w2, p2)
  {
    BallotsPast(w, p);
    var u := p2.term;
    assert LogRetains(w, p, p.log, u) by {
      if p.term < u {
        forall t: Term, m: Index | t < u ensures Retains(w, p, p.log, t, m) { NewTermRetains(w, p, u, t, m); }
      }
    }
    LogRetainsMoved(w, w2, p, p2, p.log, u);
    BallotsRetainMoved(w, w2, p, p2);
    RetainsAllFrom(w2, p2);
  }

  lemma SameAcks(p: Peer, q: Peer)
    requires p.acks == q.acks
    ensures forall t: Term :: Ack(p, t) == Ack(q, t)
  {}

  lemma ObserveSafe(w: World, n: NodeId, t: Term)
    requires Safe(w) && n in w.peers && t > w.peers[n].term
    ensures Grows(w, Observe(w, n, t)) && Safe(Observe(w, n, t))
  {
    var w2 := Observe(w, n, t);
    var p, p2 := w.peers[n], w2.peers[n];
    SafePeer(w, n);
    SameAcks(p, p2);
    assert Grows(w, w2) by { assert PeerGrows(p, p2); }
    PromisesKept(w, w2, p);
    assert PeerOk(w2, p2) by {
      assert BallotOk(w, p, t);
      CommittedGrows(w, w2, p.log, p.log, p.commit, p.term, t);
    }
    forall u ensures BallotOk(w2, p2, u) && RunOk(w2, p2, u) && AckOk(w2, p2, u) {
      assert BallotOk(w2, p, u) && RunOk(w2, p, u) && AckOk(w2, p, u);
    }
    TermChangeRetains(w, w2, p, p2);
    LocalStep(w, w2, n);
  }

  lemma StartElectionSafe(w: World, n: NodeId)
    requires Safe(w) && n in w.peers
    ensures Grows(w, StartElection(w, n)) && Safe(StartElection(w, n))
  {
    var w2 := StartElection(w, n);
    var p, p2 := w.peers[n], w2.peers[n];
    var u := p.term + 1;
    SafePeer(w, n);
    SameAcks(p, p2);
    assert BallotOk(w, p, u) && RunOk(w, p, u);
    assert Grows(w, w2) by { assert PeerGrows(p, p2); }
    PeerSafeKept(w, w2, p);
    assert PeerOk(w2, p2) by {
      CommittedGrows(w, w2, p.log, p.log, p.commit, p.term, u);
    }
    forall t ensures BallotOk(w2, p2, t) && RunOk(w2, p2, t) && AckOk(w2, p2, t) {
      assert BallotOk(w2, p, t) && RunOk(w2, p, t) && AckOk(w2, p, t);
    }
    TermChangeRetains(w, w2, p, p2);
    LocalStep(w, w2, n);
  }

  lemma CastVoteSafe(w: World, n: NodeId, c: NodeId)
    requires Safe(w) && n in w.peers && c in w.peers
    requires w.peers[n].vote.None? || w.peers[n].vote == Some(c)
    requires w.peers[n].term in w.peers[c].runs && UpToDate(w.peers[c].runs[w.peers[n].term], w.peers[n].log)
    ensures Grows(w, CastVote(w, n, c)) && Safe(CastVote(w, n, c))
  {
    if w.peers[n].vote.None? { NewVoteSafe(w, n, c); }
  }

  lemma NewVoteSafe(w: World, n: NodeId, c: NodeId)
    requires Safe(w) && n in w.peers && c in w.peers && w.peers[n].vote.None?
    requires w.peers[n].term in w.peers[c].runs && UpToDate(w.peers[c].runs[w.peers[n].term], w.peers[n].log)
    ensures Grows(w, CastVote(w, n, c)) && Safe(CastVote(w, n, c))
  {
    var w2 := CastVote(w, n, c);
    var p, p2 := w.peers[n], w2.peers[n];
    SafePeer(w, n);
    SameAcks(p, p2);
    assert Grows(w, w2) by { assert PeerGrows(p, p2); }
    PromisesKept(w, w2, p);
    assert PeerOk(w2, p2) by {
      CommittedGrows(w, w2, p.log, p.log, p.commit, p.term, p.term);
    }
    forall t ensures BallotOk(w2, p2, t) && RunOk(w2, p2, t) && AckOk(w2, p2, t) {
      assert BallotOk(w2, p, t) && RunOk(w2, p, t) && AckOk(w2, p, t);
    }
    TermChangeRetains(w, w2, p, p2);
    LocalStep(w, w2, n);
  }

  // ------------------------------------------------------------- following

  lemma SetCommitSafe(w: World, n: NodeId, c: Index)
    requires Safe(w) && n in w.peers
    requires c <= |w.peers[n].log| && Committed(w, w.peers[n].log, c, w.peers[n].term)
    ensures Grows(w, SetCommit(w, n, c)) && Safe(SetCommit(w, n, c))
  {
    var w2 := SetCommit(w, n, c);
    var p, p2 := w.peers[n], w2.peers[n];
    SafePeer(w, n);
    SameAcks(p, p2);
    assert Grows(w, w2) by { assert PeerGrows(p, p2); }
    PromisesKept(w, w2, p);
    assert PeerOk(w2, p2) by {
      CommittedGrows(w, w2, p.log, p.log, c, p.term, p.term);
    }
    forall t ensures BallotOk(w2, p2, t) && RunOk(w2, p2, t) && AckOk(w2, p2, t) {
      assert BallotOk(w2, p, t) && RunOk(w2, p, t) && AckOk(w2, p, t);
    }
    BallotsPast(w, p);
    SameRetention(w, w2, p, p2);
    LocalStep(w, w2, n);
  }

  lemma SameRetention(w: World, w2: World, p: Peer, p2: Peer)
    requires Grows(w, w2) && RetainsAll(w, p)
    requires p2.log == p.log && p2.term == p.term && p2.ballots == p.ballots
    requires forall t: Term :: t in p.ballots ==> t <= p.term
    requires forall t: Term :: t < p.term ==> AckOk(w, p, t) && Ack(p, t) == Ack(p2, t)
    ensures RetainsAll(w2, p2)
  {
    LogRetainsMoved(w, w2, p, p2, p.log, p.term);
    BallotsRetainMoved(w, w2, p, p2);
    RetainsAllFrom(w2, p2);
  }

  /** A leader's prefix is a well-formed log by itself. */
  lemma PrefixOk(r: map<Term, Reign>, log: seq<Entry>, k: Index)
    requires LogOk(r, log) && k <= |log|
    ensures LogOk(r, log[..k])
  {
    forall i | 0 < i <= k ensures Sourced(r, log[..k], i) {
      assert Sourced(r, log, i);
      assert log[..k][..i] == log[..i];
    }
  }

  lemma AgreeThrough(a: seq<Entry>, b: seq<Entry>, c: seq<Entry>, m: Index, k: Index)
    requires Agree(a, c, m) && Agree(b, c, m) && k <= m
    ensures Agree(a, b, k)
  {
    assert a[..k] == a[..m][..k] == c[..m][..k] == b[..m][..k] == b[..k];
  }

  /** Adopting cannot lose an agreement the follower already has with its leader. */
  lemma AdoptKeepsAgreement(w: World, n: NodeId, k: Index, other: seq<Entry>, m: Index)
    requires n in w.peers && w.peers[n].term in w.reigns
    requires k <= |w.reigns[w.peers[n].term].log|
    requires Agree(w.peers[n].log, other, m) && Agree(w.reigns[w.peers[n].term].log, other, m)
    ensures Agree(Adopt(w, n, k).peers[n].log, other, m)
  {
    var log, lead := w.peers[n].log, w.reigns[w.peers[n].term].log;
    if !Agree(log, lead, k) {
      if k <= m {
        AgreeThrough(log, lead, other, m, k);
        assert false;
      } else {
        assert lead[..k][..m] == lead[..m];
      }
    }
  }

  lemma AdoptSafe(w: World, n: NodeId, k: Index)
    requires Safe(w) && n in w.peers && w.peers[n].term in w.reigns
    requires k <= |w.reigns[w.peers[n].term].log|
    ensures Grows(w, Adopt(w, n, k)) && Safe(Adopt(w, n, k))
    ensures Agree(Adopt(w, n, k).peers[n].log, w.reigns[w.peers[n].term].log, k)
  {
    var w2 := Adopt(w, n, k);
    var p, p2 := w.peers[n], w2.peers[n];
    AdoptGrows(w, n, k);
    AdoptPeerOk(w, n, k);
    AdoptPromises(w, n, k);
    AdoptRetains(w, n, k);
    LocalStep(w, w2, n);
  }

  lemma AdoptGrows(w: World, n: NodeId, k: Index)
    requires n in w.peers && w.peers[n].term in w.reigns && k <= |w.reigns[w.peers[n].term].log|
    ensures Grows(w, Adopt(w, n, k))
  {
    var w2 := Adopt(w, n, k);
    var p, p2 := w.peers[n], w2.peers[n];
    assert PeerGrows(p, p2) by {
      forall t: Term ensures Ack(p, t) <= Ack(p2, t) {}
      forall t: Term | t < p.term ensures Ack(p, t) == Ack(p2, t) {}
    }
    forall k | k in w.peers ensures PeerGrows(w.peers[k], w2.peers[k]) {}
  }

  lemma AdoptLogOk(w: World, n: NodeId, k: Index)
    requires Safe(w) && n in w.peers && w.peers[n].term in w.reigns && k <= |w.reigns[w.peers[n].term].log|
    ensures LogOk(w.reigns, Adopt(w, n, k).peers[n].log)
    ensures TermsBelow(Adopt(w, n, k).peers[n].log, w.peers[n].term + 1)
  {
    var p := w.peers[n];
    assert PeerOk(w, p) && ReignOk(w, p.term);
    PrefixOk(w.reigns, w.reigns[p.term].log, k);
  }

  lemma AdoptPeerOk(w: World, n: NodeId, k: Index)
    requires Safe(w) && n in w.peers && w.peers[n].term in w.reigns && k <= |w.reigns[w.peers[n].term].log|
    ensures PeerOk(Adopt(w, n, k), Adopt(w, n, k).peers[n])
  {
    var w2 := Adopt(w, n, k);
    var p, p2 := w.peers[n], w2.peers[n];
    var lead := w.reigns[p.term].log;
    assert PeerOk(w, p);
    AdoptLogOk(w, n, k);
    AdoptGrows(w, n, k);
    CommitInOwnReign(w, n);
    AdoptKeepsAgreement(w, n, k, lead, p.commit);
    CommittedGrows(w, w2, p.log, p2.log, p.commit, p.term, p.term);
  }

  lemma AdoptPromises(w: World, n: NodeId, k: Index)
    requires Safe(w) && n in w.peers && w.peers[n].term in w.reigns && k <= |w.reigns[w.peers[n].term].log|
    ensures forall t :: BallotOk(Adopt(w, n, k), Adopt(w, n, k).peers[n], t)
    ensures forall t :: RunOk(Adopt(w, n, k), Adopt(w, n, k).peers[n], t)
    ensures forall t :: AckOk(Adopt(w, n, k), Adopt(w, n, k).peers[n], t)
  {
    var w2 := Adopt(w, n, k);
    var p, p2 := w.peers[n], w2.peers[n];
    var lead := w.reigns[p.term].log;
    SafePeer(w, n);
    AdoptGrows(w, n, k);
    forall t ensures BallotOk(w2, p2, t) && RunOk(w2, p2, t) && AckOk(w2, p2, t) {
      assert BallotOk(w, p, t) && RunOk(w, p, t) && AckOk(w, p, t);
      BallotKept(w, w2, p, t);
      RunKept(w, w2, p, t);
      if t == p.term {
        AdoptKeepsAgreement(w, n, k, lead, Ack(p, t));
      }
    }
  }

  lemma AdoptRetains(w: World, n: NodeId, k: Index)
    requires Safe(w) && n in w.peers && w.peers[n].term in w.reigns && k <= |w.reigns[w.peers[n].term].log|
    ensures RetainsAll(Adopt(w, n, k), Adopt(w, n, k).peers[n])
  {
    var w2 := Adopt(w, n, k);
    var p, p2 := w.peers[n], w2.peers[n];
    SafePeer(w, n);
    AdoptGrows(w, n, k);
    forall t: Term, m: Index | t < p2.term ensures Retains(w2, p2, p2.log, t, m) {
      if Own(w2, t, m) && m <= Ack(p2, t) && Choosable(w2, t, m) {
        ChoosableShrinks(w, w2, t, m);
        assert Retains(w, p, p.log, t, m) && Complete(w, t, m, p.term);
        AdoptKeepsAgreement(w, n, k, w.reigns[t].log, m);
      }
    }
    forall u: Term, t: Term, m: Index | u in p2.ballots && t < u
      ensures Retains(w2, p2, p2.ballots[u].log, t, m)
    {
      assert AckOk(w, p, t) && BallotOk(w, p, u);
      RetainsMoved(w, w2, p, p2, p.ballots[u].log, t, m);
    }
  }
}
