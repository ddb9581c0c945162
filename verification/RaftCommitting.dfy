/** Counting, committing and appending at a leader follow the protocol. */
module RaftCommitting {
  import opened Prelude
  import opened RaftTypes
  import opened RaftLogs
  import opened RaftCore
  import opened RaftHost
  import opened RaftProtocol
  import opened RaftActions
  import opened RaftSafety
  import opened RaftLeading
  import opened RaftCoupling
  import opened RaftSending
  import opened RaftDisk
  import opened RaftElecting

  // ------------------------------------------------------------- emitting committed entries

  lemma NoSelfRemoval(w: World, n: Node, log: seq<Entry>, lo: Index, hi: Index)
    requires Plain(w) && LogOk(w.reigns, log) && lo <= hi <= |log|
    ensures !RemovesSelf(n, log[lo..hi])
  {
    forall e | e in log[lo..hi] ensures !e.payload.Conf? {
      var i :| 0 <= i < hi - lo && log[lo..hi][i] == e;
      PlainLog(w, log, lo + i);
    }
  }

  /** Advancing the commit index emits exactly the entries in between. */
  lemma AdvanceShape(w: World, x: Ctx, n: Node, c: Index, rnd: nat)
    requires Safe(w) && Going(w, x, n) && n.commit <= c <= |w.peers[x.id].log|
    ensures var r := AdvanceCommit(n, c, rnd);
            && r == n.(commit := c, out := n.out.(committed := n.out.committed + w.peers[x.id].log[n.commit..c]))
            && Emitted(x.base, r, w.peers[x.id].log)
  {
    var p := w.peers[x.id];
    assert PeerOk(w, p);
    BetweenIs(n.log, p.log, n.commit, c);
    NoSelfRemoval(w, n, p.log, n.commit, c);
    AdvanceIs(n, c, rnd, p.log[n.commit..c]);
    EmittedOn(x.base, n, p.log, c);
  }

  lemma AdvanceIs(n: Node, c: Index, rnd: nat, es: seq<Entry>)
    requires es == Between(n.log, n.commit, c) && !RemovesSelf(n, es)
    ensures AdvanceCommit(n, c, rnd) == n.(commit := c, out := n.out.(committed := n.out.committed + es))
  {}

  lemma EmittedOn(base: Index, n: Node, log: seq<Entry>, c: Index)
    requires Emitted(base, n, log) && n.commit <= c <= |log|
    ensures Emitted(base, n.(commit := c, out := n.out.(committed := n.out.committed + log[n.commit..c])), log)
  {
    var from := if n.out.snapshot.Some? then n.out.snapshot.value.lastIndex else base;
    assert log[from..n.commit] + log[n.commit..c] == log[from..c];
  }

  // ------------------------------------------------------------- the own-term commit rule

  lemma CountedIsChosen(w: World, x: Ctx, n: Node, c: Index)
    requires Safe(w) && Going(w, x, n) && n.role == Leader
    requires |SortDesc(Matches(n, Voters(n)))| >= QuorumSize(n)
    requires c == SortDesc(Matches(n, Voters(n)))[QuorumSize(n) - 1]
    ensures Chosen(w, n.hs.term, c)
  {
    NodeVoters(w, x.voters, n);
    LogViewFacts(n.log, w.peers[x.id].log);
    var vals := Matches(n, x.voters);
    var q := QthIsQuorum(x.voters, w.peers.Keys, vals);
    assert LeaderOk(w, n);
    forall v | v in q ensures Ack(w.peers[v], n.hs.term) >= c {
      var i :| 0 <= i < |x.voters| && x.voters[i] == v && vals[i] >= c;
      assert vals[i] == MatchOf(n, v);
    }
    assert AckedBy(w, n.hs.term, c, q);
  }

  lemma LeaderCommitBy(w: World, k: NodeId, c: Index)
    requires Safe(w) && Leads(w, k)
    requires Own(w, w.peers[k].term, c) && Chosen(w, w.peers[k].term, c)
    requires w.reigns[w.peers[k].term].commit <= c
    ensures By(w, LeaderCommit(w, k, c), k) && Safe(LeaderCommit(w, k, c)) && Leads(LeaderCommit(w, k, c), k)
  {
    LeaderCommitSafe(w, k, c);
  }

  lemma LeaderAdvanceGoing(w: World, x: Ctx, n: Node, c: Index, rnd: nat)
    requires Safe(w) && Going(w, x, n) && n.role == Leader
    requires Chosen(w, n.hs.term, c) && c > n.commit && n.log.TermOf(c) == Some(n.hs.term)
    ensures By(w, LeaderCommit(w, x.id, c), x.id) && Safe(LeaderCommit(w, x.id, c))
    ensures Going(LeaderCommit(w, x.id, c), x, AdvanceCommit(n, c, rnd))
    ensures AdvanceCommit(n, c, rnd).role == Leader
  {
    var w2, n2 := LeaderCommit(w, x.id, c), AdvanceCommit(n, c, rnd);
    LogViewFacts(n.log, w.peers[x.id].log);
    assert LeaderOk(w, n);
    LeaderCommitBy(w, x.id, c);
    AdvanceShape(w, x, n, c, rnd);
    assert Plain(w2);
    LeaderAfterCommit(w, x, n, n2, c);
    MovedGoing(w, w2, x, n, n2);
  }

  lemma LeaderAfterCommit(w: World, x: Ctx, n: Node, n2: Node, c: Index)
    requires Going(w, x, n) && n.role == Leader && n.commit < c <= |w.peers[x.id].log|
    requires Leads(LeaderCommit(w, x.id, c), x.id)
    requires n2 == n.(commit := c, out := n2.out)
    ensures NodeOk(LeaderCommit(w, x.id, c), x.voters, n2)
  {
    var w2 := LeaderCommit(w, x.id, c);
    forall j | j in n2.prs
      ensures j in w2.peers && j != n2.cfg.id && n2.prs[j].matched <= Ack(w2.peers[j], n2.hs.term) {}
  }

  lemma MaybeAdvanceGoing(w: World, x: Ctx, n: Node, rnd: nat) returns (w2: World)
    requires Safe(w) && Going(w, x, n) && n.role == Leader
    ensures By(w, w2, x.id) && Safe(w2)
    ensures Going(w2, x, MaybeAdvance(n, rnd)) && MaybeAdvance(n, rnd).role == Leader
    ensures w2.peers[x.id] == w.peers[x.id].(commit := MaybeAdvance(n, rnd).commit)
  {
    var sorted := SortDesc(Matches(n, Voters(n)));
    w2 := w;
    ByReflexive(w, x.id);
    if |sorted| >= QuorumSize(n) {
      var c := sorted[QuorumSize(n) - 1];
      if c > n.commit && n.log.TermOf(c) == Some(n.hs.term) {
        CountedIsChosen(w, x, n, c);
        LeaderAdvanceGoing(w, x, n, c, rnd);
        AdvanceShape(w, x, n, c, rnd);
        w2 := LeaderCommit(w, x.id, c);
      }
    }
  }

  // ------------------------------------------------------------- appending

  lemma ExtendBy(w: World, k: NodeId, e: Entry)
    requires CanExtend(w, k, e)
    ensures By(w, Extend(w, k, e), k) && Safe(Extend(w, k, e)) && Leads(Extend(w, k, e), k)
  {
    ExtendSafe(w, k, e);
  }

  lemma ExtendPlain(w: World, k: NodeId, e: Entry)
    requires Plain(w) && k in w.peers && w.peers[k].term in w.reigns && Leads(w, k) && !e.payload.Conf?
    ensures Plain(Extend(w, k, e))
  {
    var w2 := Extend(w, k, e);
    forall t, i | t in w2.reigns && 0 <= i < |w2.reigns[t].log| ensures !w2.reigns[t].log[i].payload.Conf? {
      if t in w.reigns && i < |w.reigns[t].log| { assert w2.reigns[t].log[i] == w.reigns[t].log[i]; }
    }
  }

  lemma NodeContiguous(w: World, x: Ctx, n: Node)
    requires Safe(w) && Going(w, x, n)
    ensures Contiguous(n.log.entries, n.log.snapIndex)
  {
    var p := w.peers[x.id];
    assert PeerOk(w, p);
    forall i | 0 <= i < |n.log.entries| ensures n.log.entries[i].index == n.log.snapIndex + 1 + i {
      IndexOfEntry(w.reigns, p.log, n.log.snapIndex + i);
    }
  }

  lemma PushedMirrors(d: Persisted, n: Node, payload: Payload)
    requires Mirrors(d, n) && Contiguous(n.log.entries, n.log.snapIndex)
    ensures Mirrors(d, Pushed(n, payload))
  {
    var e := Entry(n.hs.term, n.log.LastIndex() + 1, payload);
    var kept := if n.out.snapshot.Some? then [] else d.entries;
    StoreConcat(kept, n.out.append, [e]);
    StoreBatch(n.log.entries, n.log.snapIndex, [e], n.log.LastIndex());
  }

  lemma PushedGoing(w: World, x: Ctx, n: Node, payload: Payload)
    requires Safe(w) && Going(w, x, n) && n.role == Leader && !payload.Conf?
    ensures var e := Entry(n.hs.term, n.log.LastIndex() + 1, payload);
            && CanExtend(w, x.id, e) && By(w, Extend(w, x.id, e), x.id) && Safe(Extend(w, x.id, e))
            && Going(Extend(w, x.id, e), x, Pushed(n, payload))
  {
    var e := Entry(n.hs.term, n.log.LastIndex() + 1, payload);
    LogViewFacts(n.log, w.peers[x.id].log);
    assert LeaderOk(w, n);
    ExtendBy(w, x.id, e);
    ExtendPlain(w, x.id, e);
    NodeContiguous(w, x, n);
    PushedMirrors(x.disk, n, payload);
    PushedOk(w, x, n, payload, e);
    MovedGoing(w, Extend(w, x.id, e), x, n, Pushed(n, payload));
  }

  lemma PushedOk(w: World, x: Ctx, n: Node, payload: Payload, e: Entry)
    requires Safe(w) && Going(w, x, n) && n.role == Leader && CanExtend(w, x.id, e)
    requires e == Entry(n.hs.term, n.log.LastIndex() + 1, payload)
    requires Leads(Extend(w, x.id, e), x.id)
    ensures NodeOk(Extend(w, x.id, e), x.voters, Pushed(n, payload))
    ensures Emitted(x.base, Pushed(n, payload), Extend(w, x.id, e).peers[x.id].log)
  {
    var w2, n2 := Extend(w, x.id, e), Pushed(n, payload);
    var log, log2 := w.peers[x.id].log, w2.peers[x.id].log;
    PushedSlices(log, e, n.log.snapIndex, n.commit);
    assert Emitted(x.base, n, log);
    assert LeaderOk(w2, n2) by {
      forall j | j in n2.prs
        ensures j in w2.peers && j != n2.cfg.id && n2.prs[j].matched <= Ack(w2.peers[j], n2.hs.term) {}
    }
  }

  lemma PushedSlices(log: seq<Entry>, e: Entry, k: Index, c: Index)
    requires k <= |log| && c <= |log|
    ensures (log + [e])[k..] == log[k..] + [e] && (log + [e])[..k] == log[..k]
    ensures forall from: Index :: from <= c ==> (log + [e])[from..c] == log[from..c]
  {}

  lemma AppendLocalGoing(w: World, x: Ctx, n: Node, payload: Payload, rnd: nat) returns (w2: World)
    requires Safe(w) && Going(w, x, n) && n.role == Leader && !payload.Conf?
    ensures By(w, w2, x.id) && Safe(w2)
    ensures Going(w2, x, AppendLocal(n, payload, rnd)) && AppendLocal(n, payload, rnd).role == Leader
  {
    var e := Entry(n.hs.term, n.log.LastIndex() + 1, payload);
    PushedGoing(w, x, n, payload);
    var w1 := Extend(w, x.id, e);
    w2 := MaybeAdvanceGoing(w1, x, Pushed(n, payload), rnd);
    BroadcastGoing(w2, x, MaybeAdvance(Pushed(n, payload), rnd));
    ByTransitive(w, w1, w2, x.id);
  }

  lemma BecomeLeaderGoing(w: World, x: Ctx, n: Node, rnd: nat) returns (w2: World)
    requires Safe(w) && Going(w, x, n) && n.role == Candidate && HasQuorum(n)
    ensures By(w, w2, x.id) && Safe(w2) && Going(w2, x, BecomeLeader(n, rnd))
  {
    AsLeaderGoing(w, x, n);
    var w1 := Elect(w, x.id);
    w2 := AppendLocalGoing(w1, x, AsLeader(n), Noop, rnd);
    BroadcastGoing(w2, x, AppendLocal(AsLeader(n), Noop, rnd));
    ByTransitive(w, w1, w2, x.id);
  }

  lemma CampaignGoing(w: World, x: Ctx, n: Node, rnd: nat) returns (w2: World)
    requires Safe(w) && Going(w, x, n)
    ensures By(w, w2, x.id) && Safe(w2) && Going(w2, x, Campaign(n, rnd))
  {
    AsCandidateGoing(w, x, n);
    var w1 := StartElection(w, x.id);
    var m := AsCandidate(n);
    if HasQuorum(m) {
      w2 := BecomeLeaderGoing(w1, x, m, rnd);
      ByTransitive(w, w1, w2, x.id);
    } else {
      w2 := w1;
      RequestVotesGoing(w1, x, m);
    }
  }

  lemma CampaignPreGoing(w: World, x: Ctx, n: Node, rnd: nat) returns (w2: World)
    requires Safe(w) && Going(w, x, n)
    ensures By(w, w2, x.id) && Safe(w2) && Going(w2, x, CampaignPre(n, rnd))
  {
    var m := AsPreCandidate(n);
    SameCoreGoing(w, x, n, m);
    if HasQuorum(m) {
      w2 := CampaignGoing(w, x, m, rnd);
      CampaignPreRuns(n, m, rnd);
    } else {
      w2 := w;
      ByReflexive(w, x.id);
      SendEachGoing(w, x, m, Voters(m), m.hs.term + 1, PreVote(m.log.LastIndex(), m.log.LastTerm()));
      CampaignPreAsks(n, m, rnd, Voters(m));
    }
  }

  lemma CampaignPreRuns(n: Node, m: Node, rnd: nat)
    requires m == AsPreCandidate(n) && HasQuorum(m)
    ensures CampaignPre(n, rnd) == Campaign(m, rnd)
  {}

  lemma CampaignPreAsks(n: Node, m: Node, rnd: nat, v: seq<NodeId>)
    requires m == AsPreCandidate(n) && !HasQuorum(m) && v == Voters(m)
    ensures CampaignPre(n, rnd) == SendEach(m, v, m.hs.term + 1, PreVote(m.log.LastIndex(), m.log.LastTerm()))
  {}

  lemma TickLeaderIs(n: Node, a: Node, b: Node)
    requires a == n.(heartbeatElapsed := 0) && b == n.(heartbeatElapsed := n.heartbeatElapsed + 1)
    ensures TickLeader(n) == if n.heartbeatElapsed + 1 >= n.cfg.heartbeatTick then Broadcast(a) else b
  {}

  lemma TickLeaderGoing(w: World, x: Ctx, n: Node)
    requires Safe(w) && Going(w, x, n) && n.role == Leader
    ensures Going(w, x, TickLeader(n))
  {
    var a, b := n.(heartbeatElapsed := 0), n.(heartbeatElapsed := n.heartbeatElapsed + 1);
    SameCoreGoing(w, x, n, a);
    SameCoreGoing(w, x, n, b);
    BroadcastGoing(w, x, a);
    TickLeaderIs(n, a, b);
  }

  lemma TickOtherIs(n: Node, r: Node, rnd: nat)
    requires r == ResetTimer(n, rnd)
    ensures n.electionElapsed + 1 < n.timeout ==> TickOther(n, rnd) == n.(electionElapsed := n.electionElapsed + 1)
    ensures n.electionElapsed + 1 >= n.timeout ==>
      TickOther(n, rnd) == if n.cfg.id !in Voters(n) then r else if n.cfg.preVote then CampaignPre(r, rnd) else Campaign(r, rnd)
  {}

  lemma TickOtherGoing(w: World, x: Ctx, n: Node, rnd: nat) returns (w2: World)
    requires Safe(w) && Going(w, x, n) && n.role != Leader
    ensures By(w, w2, x.id) && Safe(w2) && Going(w2, x, TickOther(n, rnd))
  {
    w2 := w;
    ByReflexive(w, x.id);
    var r := ResetTimer(n, rnd);
    TickOtherIs(n, r, rnd);
    if n.electionElapsed + 1 < n.timeout {
      SameCoreGoing(w, x, n, n.(electionElapsed := n.electionElapsed + 1));
    } else {
      SameCoreGoing(w, x, n, r);
      if n.cfg.id in Voters(n) {
        if n.cfg.preVote { w2 := CampaignPreGoing(w, x, r, rnd); } else { w2 := CampaignGoing(w, x, r, rnd); }
      }
    }
  }

  lemma TickLeads(w: World, x: Ctx, n0: Node, rnd: nat)
    requires Safe(w) && Going(w, x, n0) && n0.role == Leader
    ensures Going(w, x, Tick(n0, rnd))
  {
    var n := n0.(ticks := n0.ticks + 1);
    SameCoreGoing(w, x, n0, n);
    TickLeaderGoing(w, x, n);
    TickIsLeader(n0, n, rnd);
  }

  lemma TickCampaigns(w: World, x: Ctx, n0: Node, rnd: nat) returns (w2: World)
    requires Safe(w) && Going(w, x, n0) && n0.role != Leader
    ensures By(w, w2, x.id) && Safe(w2) && Going(w2, x, Tick(n0, rnd))
  {
    var n := n0.(ticks := n0.ticks + 1);
    SameCoreGoing(w, x, n0, n);
    w2 := TickOtherGoing(w, x, n, rnd);
    TickIsOther(n0, n, rnd);
  }

  lemma TickGoing(w: World, x: Ctx, n: Node, rnd: nat) returns (w2: World)
    requires Safe(w) && Going(w, x, n)
    ensures By(w, w2, x.id) && Safe(w2) && Going(w2, x, Tick(n, rnd))
  {
    if n.role == Leader {
      w2 := w;
      ByReflexive(w, x.id);
      TickLeads(w, x, n, rnd);
    } else {
      w2 := TickCampaigns(w, x, n, rnd);
    }
  }
}
