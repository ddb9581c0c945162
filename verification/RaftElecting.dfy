/** Terms, votes, campaigns and elections of the concrete node follow the protocol. */
module RaftElecting {
  import opened Prelude
  import opened RaftTypes
  import opened RaftLogs
  import opened RaftCore
  import opened RaftHost
  import opened RaftProtocol
  import opened RaftActions
  import opened RaftSafety
  import opened RaftLeading
  import opened RaftCoupling
  import opened RaftSending
  import opened RaftDisk

  lemma MovedGoing(w: World, w2: World, x: Ctx, n: Node, n2: Node)
    requires Going(w, x, n) && By(w, w2, x.id) && Plain(w2)
    requires n2.cfg == n.cfg && NodeOk(w2, x.voters, n2)
    requires n2.out.messages == n.out.messages
    requires Mirrors(x.disk, n2) && Emitted(x.base, n2, w2.peers[x.id].log)
    ensures Going(w2, x, n2)
  {
    SentOkGrows(w, w2, x.voters, n.out.messages);
    assert forall v :: v in w.peers <==> v in w2.peers;
  }

  // ------------------------------------------------------------- stepping down

  lemma ObserveBy(w: World, k: NodeId, t: Term)
    requires Safe(w) && k in w.peers && t > w.peers[k].term
    ensures By(w, Observe(w, k, t), k) && Safe(Observe(w, k, t))
  {
    ObserveSafe(w, k, t);
  }

  function Followed(w: World, n: Node, term: Term): World
    requires n.cfg.id in w.peers
  {
    if term > n.hs.term then Observe(w, n.cfg.id, term) else w
  }

  lemma BecomeFollowerShape(n: Node, term: Term, leader: Option<NodeId>, rnd: nat)
    ensures var r := BecomeFollower(n, term, leader, rnd);
            && r.cfg == n.cfg && r.log == n.log && r.commit == n.commit && r.snapshot == n.snapshot
            && r.votersBase == n.votersBase && r.role == Follower
            && r.hs == (if term > n.hs.term then HardState(term, None) else n.hs)
            && r.out == n.out.(hardState := if r.hs == n.hs then n.out.hardState else Some(r.hs))
  {}

  lemma BecomeFollowerGoing(w: World, x: Ctx, n: Node, term: Term, leader: Option<NodeId>, rnd: nat)
    requires Safe(w) && Going(w, x, n)
    ensures By(w, Followed(w, n, term), x.id) && Safe(Followed(w, n, term))
    ensures Going(Followed(w, n, term), x, BecomeFollower(n, term, leader, rnd))
  {
    var w2, n2 := Followed(w, n, term), BecomeFollower(n, term, leader, rnd);
    BecomeFollowerShape(n, term, leader, rnd);
    if term > n.hs.term {
      ObserveBy(w, x.id, term);
      MovedGoing(w, w2, x, n, n2);
    } else {
      ByReflexive(w, x.id);
      SameCoreGoing(w, x, n, n2);
    }
  }

  // ------------------------------------------------------------- campaigning

  lemma StartElectionBy(w: World, k: NodeId)
    requires Safe(w) && k in w.peers
    ensures By(w, StartElection(w, k), k) && Safe(StartElection(w, k))
  {
    StartElectionSafe(w, k);
  }

  lemma AsCandidateShape(n: Node)
    ensures var r := AsCandidate(n);
            && r.cfg == n.cfg && r.log == n.log && r.commit == n.commit && r.snapshot == n.snapshot
            && r.votersBase == n.votersBase && r.role == Candidate && r.votes == map[n.cfg.id := true]
            && r.hs == HardState(n.hs.term + 1, Some(n.cfg.id))
            && r.out == n.out.(hardState := Some(r.hs))
  {}

  /** A term the node has not reached yet cannot be one it already won. */
  lemma FreshTerm(w: World, k: NodeId)
    requires Safe(w) && k in w.peers && w.peers[k].term + 1 in w.reigns
    ensures w.reigns[w.peers[k].term + 1].leader != k
  {
    assert ReignOk(w, w.peers[k].term + 1);
    assert RunOk(w, w.peers[k], w.peers[k].term + 1);
  }

  lemma AsCandidateGoing(w: World, x: Ctx, n: Node)
    requires Safe(w) && Going(w, x, n)
    ensures By(w, StartElection(w, x.id), x.id) && Safe(StartElection(w, x.id))
    ensures Going(StartElection(w, x.id), x, AsCandidate(n))
  {
    var w2, n2 := StartElection(w, x.id), AsCandidate(n);
    StartElectionBy(w, x.id);
    AsCandidateShape(n);
    AsCandidateOk(w, x, n, n2);
    MovedGoing(w, w2, x, n, n2);
  }

  lemma AsCandidateOk(w: World, x: Ctx, n: Node, n2: Node)
    requires Safe(w) && Going(w, x, n) && n2.cfg == n.cfg && n2.role == Candidate
    requires n2.votes == map[n.cfg.id := true] && n2.hs == HardState(n.hs.term + 1, Some(n.cfg.id))
    requires n2.log == n.log && n2.commit == n.commit && n2.snapshot == n.snapshot && n2.votersBase == n.votersBase
    ensures NodeOk(StartElection(w, x.id), x.voters, n2)
  {
    if w.peers[x.id].term + 1 in w.reigns { FreshTerm(w, x.id); }
  }

  lemma RequestVotesGoing(w: World, x: Ctx, n: Node)
    requires Safe(w) && Going(w, x, n) && n.role == Candidate
    ensures Going(w, x, SendEach(n, Voters(n), n.hs.term, RequestVote(n.log.LastIndex(), n.log.LastTerm())))
  {
    LogViewFacts(n.log, w.peers[x.id].log);
    SendEachGoing(w, x, n, Voters(n), n.hs.term, RequestVote(n.log.LastIndex(), n.log.LastTerm()));
  }

  // ------------------------------------------------------------- winning

  lemma GrantedIsQuorum(w: World, x: Ctx, n: Node)
    requires Safe(w) && Going(w, x, n) && HasQuorum(n)
    ensures Quorum(w.peers.Keys, Granted(n))
  {
    NodeVoters(w, x.voters, n);
    SetOfVoters(x.voters, w.peers.Keys);
  }

  lemma CandidateWins(w: World, x: Ctx, n: Node)
    requires Safe(w) && Going(w, x, n) && n.role == Candidate && HasQuorum(n)
    ensures Wins(w, x.id, Granted(n))
  {
    GrantedIsQuorum(w, x, n);
    assert CandidateOk(w, n);
    assert Elected(w, x.id, n.hs.term, Granted(n));
    if n.hs.term in w.reigns {
      OneLeaderPerTerm(w, n.hs.term, x.id, Granted(n));
      assert false;
    }
  }

  lemma ElectBy(w: World, k: NodeId, q: set<NodeId>)
    requires Wins(w, k, q)
    ensures By(w, Elect(w, k), k) && Safe(Elect(w, k)) && Leads(Elect(w, k), k)
  {
    ElectSafe(w, k, q);
  }

  lemma AsLeaderGoing(w: World, x: Ctx, n: Node)
    requires Safe(w) && Going(w, x, n) && n.role == Candidate && HasQuorum(n)
    ensures By(w, Elect(w, x.id), x.id) && Safe(Elect(w, x.id))
    ensures Going(Elect(w, x.id), x, AsLeader(n))
  {
    var w2, n2 := Elect(w, x.id), AsLeader(n);
    CandidateWins(w, x, n);
    ElectBy(w, x.id, Granted(n));
    NodeVoters(w, x.voters, n);
    assert Plain(w2) by { ElectPlain(w, x, n); }
    assert LeaderOk(w2, n2);
    MovedGoing(w, w2, x, n, n2);
  }

  lemma ElectPlain(w: World, x: Ctx, n: Node)
    requires Safe(w) && Going(w, x, n)
    ensures Plain(Elect(w, x.id))
  {
    var w2, p := Elect(w, x.id), w.peers[x.id];
    assert PeerOk(w, p);
    forall t, i | t in w2.reigns && 0 <= i < |w2.reigns[t].log| ensures !w2.reigns[t].log[i].payload.Conf? {
      if t == p.term { PlainLog(w, p.log, i); } else { assert w2.reigns[t].log[i] == w.reigns[t].log[i]; }
    }
  }

  // ------------------------------------------------------------- voting

  lemma CastVoteBy(w: World, k: NodeId, c: NodeId)
    requires Safe(w) && k in w.peers && c in w.peers
    requires w.peers[k].vote.None? || w.peers[k].vote == Some(c)
    requires w.peers[k].term in w.peers[c].runs && UpToDate(w.peers[c].runs[w.peers[k].term], w.peers[k].log)
    ensures By(w, CastVote(w, k, c), k) && Safe(CastVote(w, k, c))
    ensures var p := CastVote(w, k, c).peers[k]; p.term in p.ballots && p.ballots[p.term].cand == c
  {
    CastVoteSafe(w, k, c);
    assert PeerOk(w, w.peers[k]);
  }

  predicate Grants(n: Node, from: NodeId, lli: Index, llt: Term) {
    (n.hs.votedFor.None? || n.hs.votedFor == Some(from)) && LogUpToDate(n, lli, llt)
  }

  lemma VoteShape(n: Node, from: NodeId, rnd: nat)
    ensures var r := ResetTimer(SetVote(n, Some(from)), rnd);
            && r.cfg == n.cfg && r.log == n.log && r.commit == n.commit && r.snapshot == n.snapshot
            && r.votersBase == n.votersBase && r.role == n.role && r.votes == n.votes && r.prs == n.prs
            && r.hs == n.hs.(votedFor := Some(from))
            && r.out == n.out.(hardState := if r.hs == n.hs then n.out.hardState else Some(r.hs))
  {}

  /** The duties of a candidate or leader do not mention its own vote. */
  lemma RoleAfterVote(w: World, w2: World, n: Node, n2: Node)
    requires n.cfg.id in w.peers && By(w, w2, n.cfg.id) && w2.reigns == w.reigns && RoleOk(w, n)
    requires n2.cfg == n.cfg && n2.role == n.role && n2.votes == n.votes && n2.prs == n.prs
    requires n2.hs.term == n.hs.term && n2.commit == n.commit
    requires var p, p2 := w.peers[n.cfg.id], w2.peers[n.cfg.id];
             p2.term == p.term && p2.log == p.log && p2.runs == p.runs && p2.acks == p.acks
    ensures RoleOk(w2, n2)
  {
    if n.role == Candidate {
      forall j | j in n2.votes && n2.votes[j] && j in w2.peers
        ensures n2.hs.term in w2.peers[j].ballots && w2.peers[j].ballots[n2.hs.term].cand == n2.cfg.id
      {
        assert PeerGrows(w.peers[j], w2.peers[j]);
      }
    }
    if n.role == Leader {
      forall j | j in n2.prs
        ensures j in w2.peers && j != n2.cfg.id && n2.prs[j].matched <= Ack(w2.peers[j], n2.hs.term) {}
    }
  }

  lemma GrantGoing(w: World, x: Ctx, n: Node, from: NodeId, lli: Index, llt: Term, rnd: nat)
    requires Safe(w) && Going(w, x, n)
    requires MsgOk(w, x.voters, Message(from, x.id, n.hs.term, RequestVote(lli, llt)))
    requires Grants(n, from, lli, llt)
    ensures By(w, CastVote(w, x.id, from), x.id) && Safe(CastVote(w, x.id, from))
    ensures Going(CastVote(w, x.id, from), x, ResetTimer(SetVote(n, Some(from)), rnd))
    ensures MsgOk(CastVote(w, x.id, from), x.voters, Message(x.id, from, n.hs.term, RequestVoteResp(true)))
  {
    var w2, n2 := CastVote(w, x.id, from), ResetTimer(SetVote(n, Some(from)), rnd);
    LogViewFacts(n.log, w.peers[x.id].log);
    CastVoteBy(w, x.id, from);
    VoteShape(n, from, rnd);
    RoleAfterVote(w, w2, n, n2);
    assert NodeOk(w2, x.voters, n2);
    MovedGoing(w, w2, x, n, n2);
  }

  lemma HandleRequestVoteGoing(w: World, x: Ctx, n: Node, from: NodeId, lli: Index, llt: Term, rnd: nat) returns (w2: World)
    requires Safe(w) && Going(w, x, n)
    requires MsgOk(w, x.voters, Message(from, x.id, n.hs.term, RequestVote(lli, llt)))
    ensures By(w, w2, x.id) && Safe(w2)
    ensures Going(w2, x, HandleRequestVote(n, from, lli, llt, rnd))
  {
    if Grants(n, from, lli, llt) {
      w2 := CastVote(w, x.id, from);
      GrantGoing(w, x, n, from, lli, llt, rnd);
      SendGoing(w2, x, ResetTimer(SetVote(n, Some(from)), rnd), from, n.hs.term, RequestVoteResp(true));
    } else {
      w2 := w;
      ByReflexive(w, x.id);
      SendGoing(w, x, n, from, n.hs.term, RequestVoteResp(false));
    }
  }
}
