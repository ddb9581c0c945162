/** Where log entries come from, over whole runs: only no-ops of new leaders and commands that a leader accepted from a
    client ever reach a log, a message or a state machine (crates/raft/src/node.rs:349-354, 390-402). */
module RaftOrigins {
  import opened Prelude
  import opened RaftTypes
  import opened RaftLogs
  import opened RaftCore
  import opened RaftHost
  import opened RaftActions
  import opened RaftProtocol
  import opened RaftSafety
  import opened RaftCoupling
  import opened RaftClusterProof
  import opened RaftTheorems
  import opened RaftReadSafety
  import Kvsm

  // ------------------------------------------------------------- one node

  /** A test of entries and of snapshots. */
  datatype Test = Test(entry: Entry -> bool, snap: Snapshot -> bool)

  ghost predicate AllOk(ok: Test, es: seq<Entry>) { forall e :: e in es ==> ok.entry(e) }

  ghost predicate SnapOk(ok: Test, s: Option<Snapshot>) { s.Some? ==> ok.snap(s.value) }

  ghost predicate MessageOk(ok: Test, x: Message) {
    (x.body.AppendEntries? ==> AllOk(ok, x.body.entries)) && (x.body.InstallSnapshot? ==> ok.snap(x.body.snapshot))
  }

  ghost predicate MessagesOk(ok: Test, ms: seq<Message>) { forall x :: x in ms ==> MessageOk(ok, x) }

  /** Every entry and snapshot the node holds, hands out or sends passes the test. */
  ghost predicate Closed(ok: Test, n: Node) {
    AllOk(ok, n.log.entries) && AllOk(ok, n.out.committed) && MessagesOk(ok, n.out.messages) && SnapOk(ok, n.snapshot) && SnapOk(ok, n.out.snapshot)
  }

  lemma SendClosed(ok: Test, n: Node, to: NodeId, term: Term, body: Body)
    requires Closed(ok, n) && MessageOk(ok, Message(n.cfg.id, to, term, body))
    ensures Closed(ok, Send(n, to, term, body))
  {}

  lemma {:induction false} SendEachClosed(ok: Test, n: Node, peers: seq<NodeId>, term: Term, body: Body)
    requires Closed(ok, n) && !body.AppendEntries? && !body.InstallSnapshot?
    ensures Closed(ok, SendEach(n, peers, term, body))
    decreases |peers|
  {
    if peers != [] {
      SendClosed(ok, n, peers[0], term, body);
      SendEachClosed(ok, if peers[0] == n.cfg.id then n else Send(n, peers[0], term, body), peers[1..], term, body);
    }
  }

  lemma SendAppendClosed(ok: Test, n: Node, peer: NodeId)
    requires Closed(ok, n)
    ensures Closed(ok, SendAppend(n, peer))
  {
    if peer in n.prs {
      var pr := n.prs[peer].(pendingSnapshot := false);
      assert AllOk(ok, Batch(n, pr));
    }
  }

  lemma {:induction false} SendAppendsClosed(ok: Test, n: Node, peers: seq<NodeId>)
    requires Closed(ok, n)
    ensures Closed(ok, SendAppends(n, peers))
    decreases |peers|
  {
    if peers != [] {
      SendAppendClosed(ok, n, peers[0]);
      SendAppendsClosed(ok, SendAppend(n, peers[0]), peers[1..]);
    }
  }

  lemma BroadcastClosed(ok: Test, n: Node)
    requires Closed(ok, n)
    ensures Closed(ok, Broadcast(n))
  {
    var m := SyncProgress(n);
    SendAppendsClosed(ok, m, Ascending(m.prs.Keys));
  }

  lemma {:induction false} BetweenOk(ok: Test, log: RaftLog, lo: Index, hi: Index)
    requires AllOk(ok, log.entries)
    ensures AllOk(ok, Between(log, lo, hi))
    decreases hi
  {
    if lo < hi { BetweenOk(ok, log, lo, hi - 1); }
  }

  lemma AdvanceClosed(ok: Test, n: Node, c: Index, rnd: nat)
    requires Closed(ok, n)
    ensures Closed(ok, AdvanceCommit(n, c, rnd))
  {
    BetweenOk(ok, n.log, n.commit, c);
  }

  lemma MaybeAdvanceClosed(ok: Test, n: Node, rnd: nat)
    requires Closed(ok, n)
    ensures Closed(ok, MaybeAdvance(n, rnd))
  {
    var sorted := SortDesc(Matches(n, Voters(n)));
    if n.role == Leader && |sorted| >= QuorumSize(n) { AdvanceClosed(ok, n, sorted[QuorumSize(n) - 1], rnd); }
  }

  lemma AppendLocalClosed(ok: Test, n: Node, payload: Payload, rnd: nat)
    requires Closed(ok, n) && ok.entry(Entry(n.hs.term, n.log.LastIndex() + 1, payload))
    ensures Closed(ok, AppendLocal(n, payload, rnd))
  {
    var p := Pushed(n, payload);
    MaybeAdvanceClosed(ok, p, rnd);
    BroadcastClosed(ok, MaybeAdvance(p, rnd));
  }

  /** No-ops pass the test. */
  ghost predicate Noops(ok: Test) { forall e: Entry :: e.payload.Noop? ==> ok.entry(e) }

  lemma BecomeLeaderClosed(ok: Test, n: Node, rnd: nat)
    requires Closed(ok, n) && Noops(ok)
    ensures Closed(ok, BecomeLeader(n, rnd))
  {
    var l := AsLeader(n);
    AppendLocalClosed(ok, l, Noop, rnd);
    BroadcastClosed(ok, AppendLocal(l, Noop, rnd));
  }

  lemma CampaignClosed(ok: Test, n: Node, rnd: nat)
    requires Closed(ok, n) && Noops(ok)
    ensures Closed(ok, Campaign(n, rnd))
  {
    var m := AsCandidate(n);
    BecomeLeaderClosed(ok, m, rnd);
    SendEachClosed(ok, m, Voters(m), m.hs.term, RequestVote(m.log.LastIndex(), m.log.LastTerm()));
  }

  lemma CampaignPreClosed(ok: Test, n: Node, rnd: nat)
    requires Closed(ok, n) && Noops(ok)
    ensures Closed(ok, CampaignPre(n, rnd))
  {
    var m := AsPreCandidate(n);
    CampaignClosed(ok, m, rnd);
    SendEachClosed(ok, m, Voters(m), m.hs.term + 1, PreVote(m.log.LastIndex(), m.log.LastTerm()));
  }

  lemma TickClosed(ok: Test, n: Node, rnd: nat)
    requires Closed(ok, n) && Noops(ok)
    ensures Closed(ok, Tick(n, rnd))
  {
    var t := n.(ticks := n.ticks + 1);
    if n.role == Leader {
      TickIsLeader(n, t, rnd);
      BroadcastClosed(ok, t.(heartbeatElapsed := 0));
    } else {
      TickIsOther(n, t, rnd);
      CampaignPreClosed(ok, ResetTimer(t, rnd), rnd);
      CampaignClosed(ok, ResetTimer(t, rnd), rnd);
    }
  }

  lemma MergedOk(ok: Test, log: RaftLog, es: seq<Entry>)
    requires AllOk(ok, log.entries) && AllOk(ok, es)
    ensures AllOk(ok, Merged(log, es).entries)
  {}

  lemma AppendAtClosed(ok: Test, n: Node, from: NodeId, prev: Index, prevTerm: Term, es: seq<Entry>, lc: Index, ctx: nat, rnd: nat)
    requires Closed(ok, n) && AllOk(ok, es)
    ensures Closed(ok, AppendAt(n, from, prev, prevTerm, es, lc, ctx, rnd))
  {
    var a := Absorb(n, es);
    MergedOk(ok, n.log, es);
    AdvanceClosed(ok, a, Min(lc, prev + |es|), rnd);
  }

  lemma HandleAppendClosed(ok: Test, n: Node, from: NodeId, prev: Index, prevTerm: Term, es: seq<Entry>, lc: Index, ctx: nat, rnd: nat)
    requires Closed(ok, n) && AllOk(ok, es)
    ensures Closed(ok, HandleAppend(n, from, prev, prevTerm, es, lc, ctx, rnd))
  {
    var h, snap := Heard(n, from), n.log.snapIndex;
    if prev >= snap {
      AppendAtClosed(ok, h, from, prev, prevTerm, es, lc, ctx, rnd);
    } else if snap - prev < |es| {
      AppendAtClosed(ok, h, from, snap, n.log.snapTerm, es[snap - prev..], lc, ctx, rnd);
    }
  }

  lemma HandleSnapshotClosed(ok: Test, n: Node, from: NodeId, s: Snapshot, rnd: nat)
    requires Closed(ok, n) && ok.snap(s)
    ensures Closed(ok, HandleSnapshot(n, from, s, rnd))
  {
    AdvanceClosed(ok, Heard(n, from), s.lastIndex, rnd);
  }

  lemma HandleAppendRespClosed(ok: Test, n: Node, from: NodeId, success: bool, mi: Index, ci: Index, ctx: nat, rnd: nat)
    requires Closed(ok, n)
    ensures Closed(ok, HandleAppendResp(n, from, success, mi, ci, ctx, rnd))
  {
    if n.role == Leader && from in n.prs {
      var pr := Credited(n.prs[from], ctx);
      if success {
        var n1 := WithProgress(n, from, Advanced(pr, mi));
        MaybeAdvanceClosed(ok, n1, rnd);
        SendAppendClosed(ok, ProcessReadAcks(MaybeAdvance(n1, rnd)), from);
      } else if ci > 0 {
        SendAppendClosed(ok, WithProgress(n, from, pr.(next := Min(Max(ci, 1), n.log.LastIndex() + 1), inflight := 0)), from);
      }
    }
  }

  lemma HandleSnapshotRespClosed(ok: Test, n: Node, from: NodeId, li: Index, rnd: nat)
    requires Closed(ok, n)
    ensures Closed(ok, HandleSnapshotResp(n, from, li, rnd))
  {
    if n.role == Leader && from in n.prs {
      var pr := n.prs[from];
      var n1 := WithProgress(n, from, pr.(pendingSnapshot := false, matched := Max(pr.matched, li), next := Max(pr.next, li + 1), inflight := 0));
      MaybeAdvanceClosed(ok, n1, rnd);
      SendAppendClosed(ok, MaybeAdvance(n1, rnd), from);
    }
  }

  lemma DispatchClosed(ok: Test, n: Node, m: Message, rnd: nat)
    requires Closed(ok, n) && Noops(ok) && MessageOk(ok, m)
    ensures Closed(ok, Dispatch(n, m, rnd))
  {
    match m.body
    case RequestVote(lli, llt) =>
    case RequestVoteResp(g) => BecomeLeaderClosed(ok, n.(votes := n.votes[m.from := g]), rnd);
    case AppendEntries(prev, prevTerm, es, lc, ctx) => HandleAppendClosed(ok, n, m.from, prev, prevTerm, es, lc, ctx, rnd);
    case AppendEntriesResp(success, mi, ci, ctx) => HandleAppendRespClosed(ok, n, m.from, success, mi, ci, ctx, rnd);
    case InstallSnapshot(s) => HandleSnapshotClosed(ok, n, m.from, s, rnd);
    case InstallSnapshotResp(li) => HandleSnapshotRespClosed(ok, n, m.from, li, rnd);
    case _ =>
  }

  lemma CatchUpClosed(ok: Test, n: Node, m: Message, rnd: nat)
    requires Closed(ok, n)
    ensures Closed(ok, CatchUp(n, m, rnd))
  {}

  lemma PreVoteRespCases(n: Node, m: Message, rnd: nat)
    requires m.body.PreVoteResp?
    ensures var n2, r := n.(votes := n.votes[m.from := true]), HandlePreVoteResp(n, m, rnd);
            r == n || r == n2 || r == BecomeFollower(n, m.term, None, rnd) || r == Campaign(n2, rnd)
  {}

  lemma FollowerClosed(ok: Test, n: Node, t: Term, l: Option<NodeId>, rnd: nat)
    requires Closed(ok, n)
    ensures Closed(ok, BecomeFollower(n, t, l, rnd))
  {}

  lemma PreVoteRespClosed(ok: Test, n: Node, m: Message, rnd: nat)
    requires Closed(ok, n) && Noops(ok) && m.body.PreVoteResp?
    ensures Closed(ok, HandlePreVoteResp(n, m, rnd))
  {
    PreVoteRespCases(n, m, rnd);
    var n2 := n.(votes := n.votes[m.from := true]);
    assert Closed(ok, n2);
    CampaignClosed(ok, n2, rnd);
    FollowerClosed(ok, n, m.term, None, rnd);
  }

  lemma AnswersClosed(ok: Test, n: Node, m: Message)
    requires Closed(ok, n)
    ensures Closed(ok, AnswerStale(n, m)) && (m.body.PreVote? ==> Closed(ok, HandlePreVote(n, m)))
  {}

  lemma StepClosed(ok: Test, n: Node, m: Message, rnd: nat)
    requires Closed(ok, n) && Noops(ok) && MessageOk(ok, m)
    ensures Closed(ok, RaftCore.Step(n, m, rnd))
  {
    AnswersClosed(ok, n, m);
    if m.body.PreVoteResp? { PreVoteRespClosed(ok, n, m, rnd); }
    CatchUpClosed(ok, n, m, rnd);
    DispatchClosed(ok, CatchUp(n, m, rnd), m, rnd);
  }

  /** The entry a leader makes of a client's command. */
  predicate Accepted(n: Node, ev: Event, e: Entry) {
    ev.ClientWrite? && n.role == Leader && e == Entry(n.hs.term, n.log.LastIndex() + 1, Normal(ev.cmd))
  }

  lemma ReactClosed(ok: Test, n: Node, ev: Event)
    requires Closed(ok, n) && Noops(ok) && (ev.Deliver? ==> MessageOk(ok, ev.msg)) && forall e :: Accepted(n, ev, e) ==> ok.entry(e)
    ensures Closed(ok, React(n, ev))
  {
    match ev
    case Ticks(_, rnd) => TickClosed(ok, n, rnd);
    case Deliver(_, m, rnd) => StepClosed(ok, n, m, rnd);
    case ClientWrite(_, cmd, rnd) =>
      if n.role == Leader {
        assert Accepted(n, ev, Entry(n.hs.term, n.log.LastIndex() + 1, Normal(cmd)));
        AppendLocalClosed(ok, n, Normal(cmd), rnd);
      }
    case ClientRead(_, rid) =>
      BroadcastClosed(ok, n.(readCtx := n.readCtx + 1, pendingReads := n.pendingReads + [PendingRead(n.readCtx + 1, rid, n.commit)]));
    case _ =>
  }

  // ------------------------------------------------------------- whole runs

  /** Step `j` of the run is a client's write, and the leader it reached made this entry of it. */
  ghost predicate WasAccepted(cs: seq<Cluster>, evs: seq<Event>, j: int, e: Entry) {
    && 0 <= j < |evs| && j < |cs| && evs[j].id in cs[j].hosts && cs[j].hosts[evs[j].id].raft.Some?
    && Accepted(cs[j].hosts[evs[j].id].raft.value, evs[j], e)
  }

  ghost predicate Proposed(cs: seq<Cluster>, evs: seq<Event>, k: nat, e: Entry) {
    e.payload.Noop? || exists j :: 0 <= j < k && WasAccepted(cs, evs, j, e)
  }

  ghost function Origin(cs: seq<Cluster>, evs: seq<Event>, k: nat): Test { Test(e => Proposed(cs, evs, k, e), s => true) }

  ghost predicate LogsOk(ok: Test, c: Cluster) {
    forall v :: v in c.hosts && v in c.cfgs ==> AllOk(ok, NodeAt(c, v).log.entries) && SnapOk(ok, NodeAt(c, v).snapshot)
  }

  ghost predicate WireOk(ok: Test, c: Cluster) { forall x :: x in c.net ==> MessageOk(ok, x) }

  lemma Later(cs: seq<Cluster>, evs: seq<Event>, k: nat, c: Cluster)
    requires LogsOk(Origin(cs, evs, k), c) && WireOk(Origin(cs, evs, k), c)
    ensures LogsOk(Origin(cs, evs, k + 1), c) && WireOk(Origin(cs, evs, k + 1), c)
  {
    var a, b := Origin(cs, evs, k), Origin(cs, evs, k + 1);
    forall e | a.entry(e) ensures b.entry(e) {
      if !e.payload.Noop? { var j :| 0 <= j < k && WasAccepted(cs, evs, j, e); }
    }
    forall x | x in c.net && x.body.AppendEntries? ensures AllOk(b, x.body.entries) { assert MessageOk(a, x); }
  }

  /** The entries of the acting node after an ordinary event are among those of its reaction. */
  lemma SettledEntries(h: Host, n: Node, compact: bool) returns (m: Node)
    ensures Settle(h, n, compact).raft == Some(m) && forall e :: e in m.log.entries ==> e in n.log.entries
    ensures m.commit == n.commit
  {
    m := Settle(h, n, compact).raft.value;
  }

  lemma ReactStep(ok: Test, c: Cluster, w: World, ev: Event)
    requires Good(c, w) && Enabled(c, ev) && ev.id in c.cfgs && !ev.Crash? && !ev.Restart?
    requires LogsOk(ok, c) && WireOk(ok, c) && Noops(ok) && forall e :: Accepted(c.hosts[ev.id].raft.value, ev, e) ==> ok.entry(e)
    ensures Closed(ok, React(c.hosts[ev.id].raft.value, ev)) && Next(c, ev, false).net == Next(c, ev, true).net && WireOk(ok, Next(c, ev, false))
  {
    var h := c.hosts[ev.id];
    var n := h.raft.value;
    assert HostOk(w, c.voters, c.cfgs[ev.id], h);
    assert NodeAt(c, ev.id) == n && n.out == NO_OUTPUT;
    ReactClosed(ok, n, ev);
  }

  lemma OriginReact(ok: Test, c: Cluster, w: World, ev: Event, compact: bool)
    requires Good(c, w) && Enabled(c, ev) && ev.id in c.cfgs && !ev.Crash? && !ev.Restart? && forall s :: ok.snap(s)
    requires LogsOk(ok, c) && WireOk(ok, c) && Noops(ok) && forall e :: Accepted(c.hosts[ev.id].raft.value, ev, e) ==> ok.entry(e)
    ensures Closed(ok, React(c.hosts[ev.id].raft.value, ev)) && LogsOk(ok, Next(c, ev, compact)) && WireOk(ok, Next(c, ev, compact))
  {
    ReactStep(ok, c, w, ev);
    var m := SettledEntries(c.hosts[ev.id], React(c.hosts[ev.id].raft.value, ev), compact);
    OneHostOk(ok, c, Next(c, ev, compact), ev.id);
  }

  lemma OneHostOk(ok: Test, c: Cluster, c2: Cluster, id: NodeId)
    requires LogsOk(ok, c) && c2.cfgs == c.cfgs && c2.voters == c.voters && id in c.hosts && id in c2.hosts && id in c.cfgs
    requires c2.hosts == c.hosts[id := c2.hosts[id]] && AllOk(ok, NodeAt(c2, id).log.entries) && SnapOk(ok, NodeAt(c2, id).snapshot)
    ensures LogsOk(ok, c2)
  {
    forall v | v in c2.hosts && v in c2.cfgs ensures AllOk(ok, NodeAt(c2, v).log.entries) && SnapOk(ok, NodeAt(c2, v).snapshot) {
      if v != id { assert NodeAt(c2, v) == NodeAt(c, v); }
    }
  }

  /** A crash keeps the entries, which are on disk, and so does a restart. */
  lemma QuietEntries(c: Cluster, w: World, ev: Event, compact: bool)
    requires Good(c, w) && Enabled(c, ev) && ev.id in c.cfgs && (ev.Crash? || ev.Restart?)
    ensures var c2 := Next(c, ev, compact);
            && c2.net == c.net && c2.cfgs == c.cfgs && c2.voters == c.voters && ev.id in c2.hosts && c2.hosts == c.hosts[ev.id := c2.hosts[ev.id]]
            && (forall e :: e in NodeAt(c2, ev.id).log.entries ==> e in NodeAt(c, ev.id).log.entries)
            && NodeAt(c2, ev.id).commit <= NodeAt(c, ev.id).commit && c2.appliedGlobal == c.appliedGlobal
  {
    assert HostOk(w, c.voters, c.cfgs[ev.id], c.hosts[ev.id]);
    assert (set x | x in NO_OUTPUT.messages) == {};
    if ev.Restart? {
      var m := SettledEntries(Reloaded(c.hosts[ev.id]), New(c.cfgs[ev.id], c.voters, c.hosts[ev.id].disk, ev.rnd), compact);
    }
  }

  lemma {:induction false} OriginsHold(cs: seq<Cluster>, evs: seq<Event>, compacts: seq<bool>, k: nat)
    requires Run(cs, evs, compacts) && k <= |evs|
    ensures LogsOk(Origin(cs, evs, k), cs[k]) && WireOk(Origin(cs, evs, k), cs[k])
    decreases k
  {
    if k == 0 {
      AllFollowFirst(cs[0]);
      EmptyAtFirst(cs[0]);
    } else {
      OriginsHold(cs, evs, compacts, k - 1);
      OriginsStep(cs, evs, compacts, k - 1);
    }
  }

  lemma EmptyAtFirst(c: Cluster)
    requires Init(c)
    ensures forall v :: v in c.hosts && v in c.cfgs ==> NodeAt(c, v).log.entries == []
  {
    forall v | v in c.hosts && v in c.cfgs ensures NodeAt(c, v).log.entries == [] {
      var rnd: nat :| c.hosts[v] == Host(Some(New(c.cfgs[v], c.voters, BLANK, rnd)), BLANK, Kvsm.EMPTY, 0);
    }
  }

  lemma OriginsStep(cs: seq<Cluster>, evs: seq<Event>, compacts: seq<bool>, k: nat)
    requires Run(cs, evs, compacts) && k < |evs| && LogsOk(Origin(cs, evs, k), cs[k]) && WireOk(Origin(cs, evs, k), cs[k])
    ensures LogsOk(Origin(cs, evs, k + 1), cs[k + 1]) && WireOk(Origin(cs, evs, k + 1), cs[k + 1])
    ensures !evs[k].Crash? && !evs[k].Restart? ==> Enabled(cs[k], evs[k]) && AllOk(Origin(cs, evs, k + 1), OutputOf(cs[k], evs[k]).committed)
  {
    var c, ev, ok := cs[k], evs[k], Origin(cs, evs, k + 1);
    var w := RunGood(cs, evs, compacts, k);
    assert Steps(c, ev, compacts[k], cs[k + 1]);
    Later(cs, evs, k, c);
    if ev.Crash? || ev.Restart? {
      QuietEntries(c, w, ev, compacts[k]);
      OneHostOk(ok, c, cs[k + 1], ev.id);
    } else {
      forall e | Accepted(c.hosts[ev.id].raft.value, ev, e) ensures ok.entry(e) { assert WasAccepted(cs, evs, k, e); }
      OriginReact(ok, c, w, ev, compacts[k]);
    }
  }

  /** Every command emitted in a run is one that a leader accepted from a client at an earlier event or this one, under
      the index and term it is emitted with. */
  lemma EmittedWasProposed(cs: seq<Cluster>, evs: seq<Event>, compacts: seq<bool>, i: nat, e: Entry) returns (j: nat)
    requires Run(cs, evs, compacts) && i < |evs| && Enabled(cs[i], evs[i])
    requires e in OutputOf(cs[i], evs[i]).committed && !e.payload.Noop?
    ensures j <= i && WasAccepted(cs, evs, j, e)
  {
    OriginsHold(cs, evs, compacts, i);
    OriginsStep(cs, evs, compacts, i);
    assert Proposed(cs, evs, i + 1, e);
    j :| 0 <= j < i + 1 && WasAccepted(cs, evs, j, e);
  }
}
