/** The actions a node can take in the protocol, and the proof that each keeps `Safe`. */
module RaftActions {
  import opened Prelude
  import opened RaftTypes
  import opened RaftProtocol

  // ------------------------------------------------------------- actions

  function WithPeer(w: World, n: NodeId, p: Peer): World { w.(peers := w.peers[n := p]) }

  /** A message of a later term arrived. */
  function Observe(w: World, n: NodeId, t: Term): World
    requires n in w.peers
  {
    WithPeer(w, n, w.peers[n].(term := t, vote := None))
  }

  function StartElection(w: World, n: NodeId): World
    requires n in w.peers
  {
    var p := w.peers[n];
    var u := p.term + 1;
    WithPeer(w, n, p.(term := u, vote := Some(n),
                      ballots := p.ballots[u := Ballot(n, p.log)], runs := p.runs[u := p.log]))
  }

  function CastVote(w: World, n: NodeId, c: NodeId): World
    requires n in w.peers
  {
    var p := w.peers[n];
    if p.vote == Some(c) then w
    else WithPeer(w, n, p.(vote := Some(c), ballots := p.ballots[p.term := Ballot(c, p.log)]))
  }

  function Elect(w: World, n: NodeId): World
    requires n in w.peers
  {
    var p := w.peers[n];
    World(w.peers[n := p.(acks := p.acks[p.term := |p.log|])],
          w.reigns[p.term := Reign(n, p.log, 0)])
  }

  /** The leader appends one entry of its own term. */
  function Extend(w: World, n: NodeId, e: Entry): World
    requires n in w.peers && w.peers[n].term in w.reigns
  {
    var p := w.peers[n];
    var log := p.log + [e];
    World(w.peers[n := p.(log := log, acks := p.acks[p.term := |log|])],
          w.reigns[p.term := w.reigns[p.term].(log := log)])
  }

  /** A follower makes its log agree with its leader's through `k`, keeping whatever
      it holds beyond `k` when it already agreed, and acknowledges `k`. */
  function Adopt(w: World, n: NodeId, k: Index): World
    requires n in w.peers && w.peers[n].term in w.reigns
    requires k <= |w.reigns[w.peers[n].term].log|
  {
    var p := w.peers[n];
    var lead := w.reigns[p.term].log;
    WithPeer(w, n, p.(log := if Agree(p.log, lead, k) then p.log else lead[..k],
                      acks := p.acks[p.term := Max(Ack(p, p.term), k)]))
  }

  /** The leader commits by counting acknowledgements of an entry of its own term. */
  function LeaderCommit(w: World, n: NodeId, c: Index): World
    requires n in w.peers && w.peers[n].term in w.reigns
  {
    var p := w.peers[n];
    World(w.peers[n := p.(commit := c)], w.reigns[p.term := w.reigns[p.term].(commit := c)])
  }

  /** A follower learns a commit index, or a restart forgets one. */
  function SetCommit(w: World, n: NodeId, c: Index): World
    requires n in w.peers
  {
    WithPeer(w, n, w.peers[n].(commit := c))
  }

  // ------------------------------------------------------------- monotonicity

  ghost predicate PeerGrows(p: Peer, q: Peer) {
    && p.term <= q.term
    && (forall t :: t in p.ballots ==> t in q.ballots && q.ballots[t] == p.ballots[t])
    && (forall t :: t in p.runs ==> t in q.runs && q.runs[t] == p.runs[t])
    && (forall t: Term :: Ack(p, t) <= Ack(q, t))
    && (forall t: Term :: t < p.term ==> Ack(p, t) == Ack(q, t))
  }

  ghost predicate ReignsGrow(r: map<Term, Reign>, s: map<Term, Reign>) {
    forall t :: t in r ==> t in s && s[t].leader == r[t].leader && r[t].log <= s[t].log && r[t].commit <= s[t].commit
  }

  /** Promises and leader logs are only ever added to. */
  ghost predicate Grows(w: World, w2: World) {
    var peers := w.peers.Keys == w2.peers.Keys && forall n :: n in w.peers ==> PeerGrows(w.peers[n], w2.peers[n]);
    var grows := peers && ReignsGrow(w.reigns, w2.reigns);
    grows
  }

  lemma GrowsTransitive(a: World, b: World, c: World)
    requires Grows(a, b) && Grows(b, c)
    ensures Grows(a, c)
  {
    forall n | n in a.peers ensures PeerGrows(a.peers[n], c.peers[n]) {
      var p, q, r := a.peers[n], b.peers[n], c.peers[n];
      assert PeerGrows(p, q) && PeerGrows(q, r);
      forall t: Term ensures Ack(p, t) <= Ack(r, t) { assert Ack(p, t) <= Ack(q, t); }
      forall t: Term | t < p.term ensures Ack(p, t) == Ack(r, t) { assert Ack(p, t) == Ack(q, t); }
    }
    forall t | t in a.reigns
      ensures t in c.reigns && c.reigns[t].leader == a.reigns[t].leader
           && a.reigns[t].log <= c.reigns[t].log && a.reigns[t].commit <= c.reigns[t].commit
    {
      assert t in b.reigns;
    }
  }

  lemma AgreeGrows(log: seq<Entry>, a: seq<Entry>, b: seq<Entry>, m: Index)
    requires Agree(log, a, m) && a <= b
    ensures Agree(log, b, m)
  {
    assert b[..m] == a[..m];
  }

  lemma LogOkGrows(r: map<Term, Reign>, s: map<Term, Reign>, log: seq<Entry>)
    requires ReignsGrow(r, s) && LogOk(r, log)
    ensures LogOk(s, log)
  {
    forall i | 0 < i <= |log| ensures Sourced(s, log, i) {
      assert Sourced(r, log, i);
      var t := log[i - 1].term;
      AgreeGrows(log, r[t].log, s[t].log, i);
    }
  }

  lemma ChosenGrows(w: World, w2: World, t: Term, m: Index)
    requires Grows(w, w2) && Chosen(w, t, m)
    ensures Chosen(w2, t, m)
  {
    var q :| AckedBy(w, t, m, q);
    forall n | n in q ensures Ack(w2.peers[n], t) >= m {
      assert PeerGrows(w.peers[n], w2.peers[n]);
      assert Ack(w.peers[n], t) <= Ack(w2.peers[n], t);
    }
    assert AckedBy(w2, t, m, q);
  }

  lemma ChosenIsChoosable(w: World, t: Term, m: Index)
    requires Chosen(w, t, m)
    ensures Choosable(w, t, m)
  {
    var q :| AckedBy(w, t, m, q);
    assert MayAckBy(w, t, m, q);
  }

  /** What can still be chosen could be chosen before: lost chances do not come back. */
  lemma ChoosableShrinks(w: World, w2: World, t: Term, m: Index)
    requires Grows(w, w2) && Choosable(w2, t, m)
    ensures Choosable(w, t, m)
  {
    var q :| MayAckBy(w2, t, m, q);
    forall n | n in q ensures MayAck(w.peers[n], t, m) {
      var p, p2 := w.peers[n], w2.peers[n];
      assert PeerGrows(p, p2) && MayAck(p2, t, m);
      if p.term > t { assert Ack(p, t) == Ack(p2, t); }
    }
    assert MayAckBy(w, t, m, q);
  }

  lemma CommittedGrows(w: World, w2: World, log: seq<Entry>, log2: seq<Entry>, c: Index, b: Term, b2: Term)
    requires Grows(w, w2) && Committed(w, log, c, b) && b <= b2
    requires c <= |log| && c <= |log2| && log[..c] == log2[..c]
    ensures Committed(w2, log2, c, b2)
  {
    if c > 0 {
      var t: Term :| t <= b && CommittedBy(w, log, c, t);
      AgreeGrows(log, w.reigns[t].log, w2.reigns[t].log, c);
      assert CommittedBy(w2, log2, c, t);
    }
  }

  // ------------------------------------------------------------- frames

  lemma PeerOkKept(w: World, w2: World, p: Peer)
    requires Grows(w, w2) && PeerOk(w, p)
    ensures PeerOk(w2, p)
  {
    LogOkGrows(w.reigns, w2.reigns, p.log);
    CommittedGrows(w, w2, p.log, p.log, p.commit, p.term, p.term);
  }

  lemma BallotKept(w: World, w2: World, p: Peer, t: Term)
    requires Grows(w, w2) && BallotOk(w, p, t)
    ensures BallotOk(w2, p, t)
  {
    if t in p.ballots {
      LogOkGrows(w.reigns, w2.reigns, p.ballots[t].log);
      assert PeerGrows(w.peers[p.ballots[t].cand], w2.peers[p.ballots[t].cand]);
    }
  }

  lemma RunKept(w: World, w2: World, p: Peer, t: Term)
    requires Grows(w, w2) && RunOk(w, p, t)
    ensures RunOk(w2, p, t)
  {
    if t in p.runs { LogOkGrows(w.reigns, w2.reigns, p.runs[t]); }
  }

  lemma AckKept(w: World, w2: World, p: Peer, t: Term)
    requires Grows(w, w2) && AckOk(w, p, t)
    ensures AckOk(w2, p, t)
  {
    if t in p.acks && t == p.term { AgreeGrows(p.log, w.reigns[t].log, w2.reigns[t].log, p.acks[t]); }
  }

  lemma RetainsKept(w: World, w2: World, p: Peer, log: seq<Entry>, t: Term, m: Index)
    requires Grows(w, w2) && AckOk(w, p, t) && Retains(w, p, log, t, m)
    ensures Retains(w2, p, log, t, m)
  {
    if Own(w2, t, m) && m <= Ack(p, t) && Choosable(w2, t, m) {
      assert t in p.acks;
      ChoosableShrinks(w, w2, t, m);
      assert Own(w, t, m);
      AgreeGrows(log, w.reigns[t].log, w2.reigns[t].log, m);
    }
  }

  lemma RetainsAllKept(w: World, w2: World, p: Peer)
    requires Grows(w, w2) && RetainsAll(w, p)
    requires forall t :: AckOk(w, p, t)
    ensures RetainsAll(w2, p)
  {
    forall t: Term, m: Index | t < p.term ensures Retains(w2, p, p.log, t, m) {
      assert AckOk(w, p, t);
      RetainsKept(w, w2, p, p.log, t, m);
    }
    forall u: Term, t: Term, m: Index | u in p.ballots && t < u
      ensures Retains(w2, p, p.ballots[u].log, t, m)
    {
      assert AckOk(w, p, t);
      RetainsKept(w, w2, p, p.ballots[u].log, t, m);
    }
  }

  ghost predicate PeerPromises(w: World, p: Peer) {
    forall t :: BallotOk(w, p, t) && RunOk(w, p, t) && AckOk(w, p, t)
  }

  lemma PromisesKept(w: World, w2: World, p: Peer)
    requires Grows(w, w2) && PeerPromises(w, p)
    ensures PeerPromises(w2, p)
  {
    forall t ensures BallotOk(w2, p, t) && RunOk(w2, p, t) && AckOk(w2, p, t) {
      BallotKept(w, w2, p, t);
      RunKept(w, w2, p, t);
      AckKept(w, w2, p, t);
    }
  }

  /** Everything `Safe` says about one peer. */
  ghost predicate PeerSafe(w: World, p: Peer) {
    && PeerOk(w, p)
    && PeerPromises(w, p)
    && RetainsAll(w, p)
  }

  lemma PeerSafeKept(w: World, w2: World, p: Peer)
    requires Grows(w, w2) && PeerSafe(w, p)
    ensures PeerSafe(w2, p)
  {
    PeerOkKept(w, w2, p);
    PromisesKept(w, w2, p);
    RetainsAllKept(w, w2, p);
  }

  lemma SafePeer(w: World, n: NodeId)
    requires Safe(w) && n in w.peers
    ensures PeerSafe(w, w.peers[n])
  {
    forall t ensures BallotOk(w, w.peers[n], t) && RunOk(w, w.peers[n], t) && AckOk(w, w.peers[n], t) {}
  }

  lemma VotersKept(w: World, w2: World, t: Term, q: set<NodeId>)
    requires Grows(w, w2) && VotersOf(w, t, q)
    ensures VotersOf(w2, t, q)
  {
    forall n | n in q
      ensures t in w2.peers[n].ballots && w2.peers[n].ballots[t].cand == w2.reigns[t].leader
    {
      assert PeerGrows(w.peers[n], w2.peers[n]);
    }
  }

  lemma ReignKept(w: World, w2: World, t: Term)
    requires Grows(w, w2) && ReignOk(w, t) && t in w.reigns && t in w2.reigns && w2.reigns[t] == w.reigns[t]
    ensures ReignOk(w2, t)
  {
    var r := w.reigns[t];
    LogOkGrows(w.reigns, w2.reigns, r.log);
    var q :| VotersOf(w, t, q);
    VotersKept(w, w2, t, q);
    if r.commit > 0 { ChosenGrows(w, w2, t, r.commit); }
    assert PeerGrows(w.peers[r.leader], w2.peers[r.leader]);
  }

  lemma CompleteKept(w: World, w2: World, t: Term, m: Index, u: Term)
    requires Grows(w, w2) && Complete(w, t, m, u) && u in w.reigns
    requires Own(w2, t, m) ==> Own(w, t, m)
    ensures Complete(w2, t, m, u)
  {
    if t < u && Own(w2, t, m) && Choosable(w2, t, m) {
      ChoosableShrinks(w, w2, t, m);
      AgreeGrows(w.reigns[u].log, w.reigns[t].log, w2.reigns[t].log, m);
      assert w2.reigns[u].log[..m] == w.reigns[u].log[..m];
    }
  }

  /** An action that leaves the reigns alone only has to account for the node that took it. */
  lemma LocalStep(w: World, w2: World, n: NodeId)
    requires Safe(w) && n in w.peers && Grows(w, w2) && w2.reigns == w.reigns
    requires forall k :: k in w.peers && k != n ==> w2.peers[k] == w.peers[k]
    requires PeerSafe(w2, w2.peers[n])
    ensures Safe(w2)
  {
    OthersKept(w, w2, n);
    forall t ensures ReignOk(w2, t) {
      assert ReignOk(w, t);
      if t in w.reigns { ReignKept(w, w2, t); }
    }
    forall t, m, u ensures Complete(w2, t, m, u) {
      assert Complete(w, t, m, u);
      if u in w.reigns { CompleteKept(w, w2, t, m, u); }
    }
  }

  lemma OthersKept(w: World, w2: World, n: NodeId)
    requires Safe(w) && n in w.peers && Grows(w, w2)
    requires forall k :: k in w.peers && k != n ==> w2.peers[k] == w.peers[k]
    requires PeerSafe(w2, w2.peers[n])
    ensures PeersOk(w2) && PromisesOk(w2) && Retained(w2)
  {
    forall k | k in w2.peers ensures PeerSafe(w2, w2.peers[k]) {
      if k != n {
        SafePeer(w, k);
        PeerSafeKept(w, w2, w.peers[k]);
      }
    }
  }
}
