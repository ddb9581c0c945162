/** The safety properties of the Raft paper, for every run of the cluster.

    A run may lose, repeat, delay and reorder messages, crash and restart nodes at event
    boundaries, compact logs and install snapshots.  Each theorem speaks only of states the
    run visits; `NodeAt` is a node as it runs or, while it is down, as its disk would rebuild it. */
module RaftTheorems {
  import opened Prelude
  import opened RaftTypes
  import opened RaftLogs
  import opened RaftCore
  import opened RaftHost
  import opened RaftProtocol
  import opened RaftActions
  import opened RaftSafety
  import opened RaftLeading
  import opened RaftCoupling
  import opened RaftFollowing
  import opened RaftDisk
  import opened RaftStepping
  import opened RaftClusterProof
  import Kvsm

  function NodeAt(c: Cluster, v: NodeId): Node
    requires v in c.hosts && v in c.cfgs
  {
    if c.hosts[v].raft.Some? then c.hosts[v].raft.value else New(c.cfgs[v], c.voters, c.hosts[v].disk, 0)
  }

  /** Both logs still hold an entry at `k`, and it is the same one. */
  predicate SameEntry(a: Node, b: Node, k: Index) {
    a.log.Get(k).Some? && b.log.Get(k).Some? ==> a.log.Get(k) == b.log.Get(k)
  }

  // ------------------------------------------------------------- what a good state says of a node

  /** The node's snapshot and the entries above it are together the log `log` from index 1 on. */
  ghost predicate Whole(n: Node, log: seq<Entry>) {
    var view := LogView(n.log, log) && (n.snapshot.Some? <==> n.log.snapIndex > 0);
    view && (n.snapshot.Some? ==> Image(n.snapshot.value, log))
  }

  /** The snapshot is the state machine after a prefix of `log`. */
  ghost predicate Image(s: Snapshot, log: seq<Entry>) {
    var image := s.lastIndex <= |log| && s.lastTerm == TermAt(log, s.lastIndex) && s.data == Replay(log[..s.lastIndex]);
    image
  }

  ghost predicate Known(w: World, v: NodeId, n: Node) {
    && v in w.peers && n.cfg.id == v && ViewOf(n, w.peers[v]) && Whole(n, w.peers[v].log)
    && LogOk(w.reigns, w.peers[v].log)
    && Committed(w, w.peers[v].log, n.commit, n.hs.term)
    && (n.role == Leader ==> Leads(w, v))
  }

  lemma GoodKnown(c: Cluster, w: World, v: NodeId)
    requires Good(c, w) && v in c.hosts
    ensures v in c.cfgs && Known(w, v, NodeAt(c, v))
  {
    assert HostOk(w, c.voters, c.cfgs[v], c.hosts[v]);
    assert PeerOk(w, w.peers[v]);
    assert NodeOk(w, c.voters, NodeAt(c, v));
  }

  lemma GoodSafe(c: Cluster, w: World)
    requires Good(c, w)
    ensures Safe(w) && c.hosts.Keys == c.cfgs.Keys
  {}

  /** Two nodes, each at some moment of the run, seen from the later history. */
  lemma TwoNodes(cs: seq<Cluster>, evs: seq<Event>, compacts: seq<bool>, i: nat, a: NodeId, j: nat, b: NodeId)
    returns (w: World, w2: World)
    requires Run(cs, evs, compacts) && i <= j <= |evs| && a in cs[i].hosts && b in cs[j].hosts
    ensures a in cs[i].cfgs && b in cs[j].cfgs && Safe(w) && Safe(w2) && Grows(w, w2)
    ensures Known(w, a, NodeAt(cs[i], a)) && Known(w2, b, NodeAt(cs[j], b))
  {
    w, w2 := RunPairGood(cs, evs, compacts, i, j);
    GoodKnown(cs[i], w, a);
    GoodKnown(cs[j], w2, b);
    GoodSafe(cs[i], w);
    GoodSafe(cs[j], w2);
  }

  // ------------------------------------------------------------- section 5.2 of the Raft paper: election safety

  /** No two nodes lead the same term, at whatever moments of the run they are seen leading it. */
  lemma ElectionSafety(cs: seq<Cluster>, evs: seq<Event>, compacts: seq<bool>, i: nat, a: NodeId, j: nat, b: NodeId)
    requires Run(cs, evs, compacts) && i <= |evs| && j <= |evs|
    requires a in cs[i].hosts && a in cs[i].cfgs && b in cs[j].hosts && b in cs[j].cfgs
    requires NodeAt(cs[i], a).role == Leader && NodeAt(cs[j], b).role == Leader
    requires NodeAt(cs[i], a).hs.term == NodeAt(cs[j], b).hs.term
    ensures a == b
    decreases if j < i then 1 else 0
  {
    if j < i {
      ElectionSafety(cs, evs, compacts, j, b, i, a);
    } else {
      var w, w2 := TwoNodes(cs, evs, compacts, i, a, j, b);
    }
  }

  /** The simulator's `leaders_by_term` table never disagrees with a node that leads. */
  lemma LeaderTable(cs: seq<Cluster>, evs: seq<Event>, compacts: seq<bool>, i: nat, j: nat, b: NodeId)
    requires Run(cs, evs, compacts) && i <= |evs| && j <= |evs| && b in cs[j].hosts && b in cs[j].cfgs
    requires NodeAt(cs[j], b).role == Leader && NodeAt(cs[j], b).hs.term in cs[i].leadersByTerm
    ensures cs[i].leadersByTerm[NodeAt(cs[j], b).hs.term] == b
  {
    if i <= j {
      var w, w2 := RunPairGood(cs, evs, compacts, i, j);
      GoodKnown(cs[j], w2, b);
      assert TablesOk(w, cs[i]);
    } else {
      var w, w2 := RunPairGood(cs, evs, compacts, j, i);
      GoodKnown(cs[j], w, b);
      assert TablesOk(w2, cs[i]);
    }
  }

  // ------------------------------------------------------------- section 5.3 of the Raft paper: log matching

  lemma GetView(n: Node, log: seq<Entry>, k: Index)
    requires LogView(n.log, log) && n.log.Get(k).Some?
    ensures 0 < k <= |log| && n.log.Get(k).value == log[k - 1] && TermAt(log, k) == log[k - 1].term
  {}

  /** As far as both logs still hold entries, these are the same up to `m`. */
  ghost predicate SameUpTo(a: Node, b: Node, m: Index) { forall l: Index :: l <= m ==> SameEntry(a, b, l) }

  lemma AgreeSameEntries(a: Node, la: seq<Entry>, b: Node, lb: seq<Entry>, m: Index)
    requires LogView(a.log, la) && LogView(b.log, lb) && Agree(la, lb, m)
    ensures SameUpTo(a, b, m)
  {
    forall l: Index | l <= m && a.log.Get(l).Some? && b.log.Get(l).Some? ensures a.log.Get(l) == b.log.Get(l) {
      assert la[..m][l - 1] == lb[..m][l - 1];
    }
  }

  /** Two nodes whose logs, snapshots included, are the same through `m`. */
  ghost predicate Alike(a: Node, la: seq<Entry>, b: Node, lb: seq<Entry>, m: Index) {
    Whole(a, la) && Whole(b, lb) && Agree(la, lb, m) && SameUpTo(a, b, m)
  }

  lemma AlikeFrom(a: Node, la: seq<Entry>, b: Node, lb: seq<Entry>, m: Index)
    requires Whole(a, la) && Whole(b, lb) && Agree(la, lb, m)
    ensures Alike(a, la, b, lb, m) && Alike(b, lb, a, la, m)
  {
    AgreeSameEntries(a, la, b, lb, m);
    AgreeSameEntries(b, lb, a, la, m);
  }

  /** If two logs hold entries of the same term at the same index, they agree there and on all
      earlier entries, snapshots included; the logs may belong to different moments of the run. */
  lemma LogsMatch(cs: seq<Cluster>, evs: seq<Event>, compacts: seq<bool>, i: nat, a: NodeId, j: nat, b: NodeId, k: Index)
    returns (la: seq<Entry>, lb: seq<Entry>)
    requires Run(cs, evs, compacts) && i <= |evs| && j <= |evs|
    requires a in cs[i].hosts && a in cs[i].cfgs && b in cs[j].hosts && b in cs[j].cfgs
    requires NodeAt(cs[i], a).log.Get(k).Some? && NodeAt(cs[j], b).log.Get(k).Some?
    requires NodeAt(cs[i], a).log.Get(k).value.term == NodeAt(cs[j], b).log.Get(k).value.term
    ensures Alike(NodeAt(cs[i], a), la, NodeAt(cs[j], b), lb, k)
    decreases if j < i then 1 else 0
  {
    if j < i {
      lb, la := LogsMatch(cs, evs, compacts, j, b, i, a, k);
      AlikeFrom(NodeAt(cs[i], a), la, NodeAt(cs[j], b), lb, k);
    } else {
      var w, w2 := TwoNodes(cs, evs, compacts, i, a, j, b);
      la, lb := w.peers[a].log, w2.peers[b].log;
      KnownLogsMatch(w, w2, a, NodeAt(cs[i], a), b, NodeAt(cs[j], b), k);
      AlikeFrom(NodeAt(cs[i], a), la, NodeAt(cs[j], b), lb, k);
    }
  }

  lemma KnownLogsMatch(w: World, w2: World, a: NodeId, m: Node, b: NodeId, n: Node, k: Index)
    requires Grows(w, w2) && Known(w, a, m) && Known(w2, b, n)
    requires m.log.Get(k).Some? && n.log.Get(k).Some? && m.log.Get(k).value.term == n.log.Get(k).value.term
    ensures Agree(w.peers[a].log, w2.peers[b].log, k)
  {
    var la, lb := w.peers[a].log, w2.peers[b].log;
    GetView(m, la, k);
    GetView(n, lb, k);
    LogOkGrows(w.reigns, w2.reigns, la);
    LogMatching(w2.reigns, la, lb, k);
  }

  // ------------------------------------------------------------- section 5.4 of the Raft paper: leader completeness

  /** What any node has committed while in term `T` is in the log or the snapshot of every leader of a later
      term, whichever of the two is observed first. */
  lemma LeaderHoldsCommitted(cs: seq<Cluster>, evs: seq<Event>, compacts: seq<bool>, i: nat, a: NodeId, j: nat, b: NodeId)
    returns (la: seq<Entry>, lb: seq<Entry>)
    requires Run(cs, evs, compacts) && i <= |evs| && j <= |evs|
    requires a in cs[i].hosts && a in cs[i].cfgs && b in cs[j].hosts && b in cs[j].cfgs
    requires NodeAt(cs[j], b).role == Leader && NodeAt(cs[i], a).hs.term < NodeAt(cs[j], b).hs.term
    ensures NodeAt(cs[i], a).commit <= NodeAt(cs[j], b).log.LastIndex()
    ensures Alike(NodeAt(cs[i], a), la, NodeAt(cs[j], b), lb, NodeAt(cs[i], a).commit)
  {
    var m, n := NodeAt(cs[i], a), NodeAt(cs[j], b);
    var w, w2;
    if i <= j {
      w, w2 := TwoNodes(cs, evs, compacts, i, a, j, b);
      la := w.peers[a].log;
      CommittedGrows(w, w2, la, la, m.commit, m.hs.term, n.hs.term);
      CommittedInReign(w2, la, m.commit, n.hs.term);
    } else {
      w2, w := TwoNodes(cs, evs, compacts, j, b, i, a);
      la := w.peers[a].log;
      EarlierLeaderHolds(w2, w, n.hs.term, la, m.commit, m.hs.term);
    }
    lb := w2.peers[b].log;
    AlikeFrom(m, la, n, lb, m.commit);
  }

  /** A commit of a lower term that becomes known only after the later leader was elected. */
  lemma EarlierLeaderHolds(w: World, w2: World, u: Term, log: seq<Entry>, c: Index, b: Term)
    requires Safe(w) && Safe(w2) && Grows(w, w2) && u in w.reigns && b < u
    requires c <= |log| && Committed(w2, log, c, b)
    ensures Agree(log, w.reigns[u].log, c)
  {
    if c > 0 {
      var t: Term :| t <= b && CommittedBy(w2, log, c, t);
      assert ReignOk(w2, t) && ReignOk(w, u);
      ChosenWasChoosable(w, w2, t, w2.reigns[t].commit, u);
      AgreeThrough(log, w2.reigns[t].log, c, w.reigns[u].log, w2.reigns[t].commit);
    }
  }

  lemma AgreeThrough(a: seq<Entry>, b: seq<Entry>, c: Index, d: seq<Entry>, m: Index)
    requires Agree(a, b, c) && Agree(d, b, m) && c <= m
    ensures Agree(a, d, c)
  {
    assert b[..c] == b[..m][..c] && d[..c] == d[..m][..c];
  }

  /** Nodes that had moved past term `t` acknowledge nothing in it any more, so what a quorum has
      acknowledged later could already be chosen when a later leader was elected. */
  lemma ChosenWasChoosable(w: World, w2: World, t: Term, m: Index, u: Term)
    requires PromisesOk(w) && ReignOk(w, u) && AllComplete(w) && ReignOk(w2, t)
    requires Grows(w, w2) && u in w.reigns && t < u && t in w2.reigns
    requires m == w2.reigns[t].commit && 0 < m <= |w2.reigns[t].log|
    ensures Agree(w.reigns[u].log, w2.reigns[t].log, m)
  {
    var q :| AckedBy(w2, t, m, q);
    WasChoosable(w, w2, t, m, u, q);
    assert w.reigns[t].log[m - 1] == w2.reigns[t].log[m - 1];
    assert Complete(w, t, m, u);
    assert w.reigns[t].log <= w2.reigns[t].log;
    AgreeGrows(w.reigns[u].log, w.reigns[t].log, w2.reigns[t].log, m);
  }

  lemma WasChoosable(w: World, w2: World, t: Term, m: Index, u: Term, q: set<NodeId>)
    requires PromisesOk(w) && ReignOk(w, u) && Grows(w, w2) && u in w.reigns && t < u && 0 < m && AckedBy(w2, t, m, q)
    ensures Choosable(w, t, m) && t in w.reigns && m <= |w.reigns[t].log|
  {
    var q2 :| VotersOf(w, u, q2);
    assert MayAckBy(w, t, m, q);
    var k := QuorumsMeet(w.peers.Keys, q, q2);
    assert BallotOk(w, w.peers[k], u) && AckOk(w, w.peers[k], t);
  }

  /** The overwrite assertion of `handle_append_entries` and the truncation into a snapshot are
      unreachable: no message of any run makes `step` panic. */
  lemma NoPanics(cs: seq<Cluster>, evs: seq<Event>, compacts: seq<bool>, i: nat)
    requires Run(cs, evs, compacts) && i < |evs| && evs[i].Deliver?
    ensures evs[i].id in cs[i].hosts && cs[i].hosts[evs[i].id].raft.Some?
    ensures !StepPanics(cs[i].hosts[evs[i].id].raft.value, evs[i].msg, evs[i].rnd)
  {
    var c, ev := cs[i], evs[i];
    assert Steps(c, ev, compacts[i], cs[i + 1]);
    var w := RunGood(cs, evs, compacts, i);
    GoodSafe(c, w);
    var h := c.hosts[ev.id];
    assert HostOk(w, c.voters, c.cfgs[ev.id], h);
    EventStarts(c, w, ev.id, h, h.raft.value);
    StepNeverPanics(w, CtxOf(c, ev.id, h), h.raft.value, ev.msg, ev.rnd);
  }

  // ------------------------------------------------------------- state machine safety

  /** Committed prefixes never disagree, on any two nodes at any two moments. */
  lemma CommittedEntriesSame(cs: seq<Cluster>, evs: seq<Event>, compacts: seq<bool>, i: nat, a: NodeId, j: nat, b: NodeId)
    returns (la: seq<Entry>, lb: seq<Entry>)
    requires Run(cs, evs, compacts) && i <= |evs| && j <= |evs|
    requires a in cs[i].hosts && a in cs[i].cfgs && b in cs[j].hosts && b in cs[j].cfgs
    ensures Alike(NodeAt(cs[i], a), la, NodeAt(cs[j], b), lb, Min(NodeAt(cs[i], a).commit, NodeAt(cs[j], b).commit))
    decreases if j < i then 1 else 0
  {
    var m, n := NodeAt(cs[i], a), NodeAt(cs[j], b);
    if j < i {
      lb, la := CommittedEntriesSame(cs, evs, compacts, j, b, i, a);
      AlikeFrom(m, la, n, lb, Min(m.commit, n.commit));
    } else {
      var w, w2 := TwoNodes(cs, evs, compacts, i, a, j, b);
      la, lb := w.peers[a].log, w2.peers[b].log;
      CommittedGrows(w, w2, la, la, m.commit, m.hs.term, m.hs.term);
      CommittedPrefixesAgree(w2, la, m.commit, m.hs.term, lb, n.commit, n.hs.term);
      AlikeFrom(m, la, n, lb, Min(m.commit, n.commit));
    }
  }

  lemma GoodApplied(c: Cluster, w: World, v: NodeId)
    requires Good(c, w) && v in c.hosts
    ensures v in w.peers && c.hosts[v].applied <= w.peers[v].commit <= |w.peers[v].log|
    ensures c.hosts[v].sm == Replay(w.peers[v].log[..c.hosts[v].applied])
    ensures Committed(w, w.peers[v].log, w.peers[v].commit, w.peers[v].term)
  {
    assert HostOk(w, c.voters, c.cfgs[v], c.hosts[v]);
    assert PeerOk(w, w.peers[v]);
  }

  /** Hosts that have applied equally far hold the same state, even at different moments and
      whether they replayed the log or loaded a snapshot. */
  lemma EqualStates(cs: seq<Cluster>, evs: seq<Event>, compacts: seq<bool>, i: nat, a: NodeId, j: nat, b: NodeId)
    requires Run(cs, evs, compacts) && i <= |evs| && j <= |evs| && a in cs[i].hosts && b in cs[j].hosts
    requires cs[i].hosts[a].applied == cs[j].hosts[b].applied
    ensures cs[i].hosts[a].sm == cs[j].hosts[b].sm
    decreases if j < i then 1 else 0
  {
    if j < i {
      EqualStates(cs, evs, compacts, j, b, i, a);
    } else {
      var w, w2 := RunPairGood(cs, evs, compacts, i, j);
      GoodApplied(cs[i], w, a);
      GoodApplied(cs[j], w2, b);
      GoodSafe(cs[j], w2);
      AppliedSame(w, w2, w.peers[a], w2.peers[b], cs[i].hosts[a].applied);
    }
  }

  lemma AppliedSame(w: World, w2: World, p: Peer, q: Peer, k: Index)
    requires Safe(w2) && Grows(w, w2) && k <= p.commit <= |p.log| && k <= q.commit <= |q.log|
    requires Committed(w, p.log, p.commit, p.term) && Committed(w2, q.log, q.commit, q.term)
    ensures p.log[..k] == q.log[..k]
  {
    CommittedGrows(w, w2, p.log, p.log, p.commit, p.term, p.term);
    CommittedPrefixesAgree(w2, p.log, p.commit, p.term, q.log, q.commit, q.term);
    AgreeMonotone(p.log, q.log, k, Min(p.commit, q.commit));
  }

  /** The output of step `i`, before the host drains it. */
  function OutputOf(c: Cluster, ev: Event): Output
    requires Enabled(c, ev)
  {
    if ev.Crash? || ev.Restart? then NO_OUTPUT else React(c.hosts[ev.id].raft.value, ev).out
  }

  /** Everything step `i` emits was committed by some leader. */
  lemma EmittedFrom(cs: seq<Cluster>, evs: seq<Event>, compacts: seq<bool>, i: nat, w: World) returns (w2: World)
    requires Run(cs, evs, compacts) && i < |evs| && Good(cs[i], w) && Enabled(cs[i], evs[i])
    ensures Good(cs[i + 1], w2) && Grows(w, w2) && AllCommitted(w2, OutputOf(cs[i], evs[i]).committed)
  {
    var c, ev := cs[i], evs[i];
    assert Steps(c, ev, compacts[i], cs[i + 1]);
    if ev.Crash? || ev.Restart? {
      w2 := StepGood(c, w, ev, compacts[i], cs[i + 1]);
    } else {
      GoodSafe(c, w);
      w2 := UpEvent(c, w, ev, compacts[i]);
      GoodSafe(cs[i + 1], w2);
      forall e | e in OutputOf(c, ev).committed ensures exists t :: CommittedEntry(w2, e, t) {
        var t := EmittedCommitted(w2, CtxOf(c, ev.id, c.hosts[ev.id]), React(c.hosts[ev.id].raft.value, ev), e);
      }
    }
  }

  /** An entry known to be committed when the run reaches state `i`, and one emitted in a later step. */
  lemma EmittedAgain(cs: seq<Cluster>, evs: seq<Event>, compacts: seq<bool>, i: nat, w: World, e: Entry, t: Term, j: nat, f: Entry)
    requires Run(cs, evs, compacts) && i <= j < |evs| && Enabled(cs[j], evs[j]) && Good(cs[i], w)
    requires CommittedEntry(w, e, t) && f in OutputOf(cs[j], evs[j]).committed && e.index == f.index
    ensures e == f
  {
    var w2 := RunContinues(cs, evs, compacts, i, w, j);
    var w3 := EmittedFrom(cs, evs, compacts, j, w2);
    GrowsTransitive(w, w2, w3);
    GoodSafe(cs[j + 1], w3);
    CommittedEntryGrows(w, w3, e, t);
    BothCommitted(w3, e, f);
  }

  lemma EmittedOnce(cs: seq<Cluster>, evs: seq<Event>, compacts: seq<bool>, i: nat, e: Entry) returns (w: World, t: Term)
    requires Run(cs, evs, compacts) && i < |evs| && Enabled(cs[i], evs[i]) && e in OutputOf(cs[i], evs[i]).committed
    ensures Good(cs[i + 1], w) && CommittedEntry(w, e, t)
  {
    var w0 := RunGood(cs, evs, compacts, i);
    w := EmittedFrom(cs, evs, compacts, i, w0);
    t :| CommittedEntry(w, e, t);
  }

  lemma EmittedTogether(cs: seq<Cluster>, evs: seq<Event>, compacts: seq<bool>, i: nat, e: Entry, f: Entry)
    requires Run(cs, evs, compacts) && i < |evs| && Enabled(cs[i], evs[i])
    requires e in OutputOf(cs[i], evs[i]).committed && f in OutputOf(cs[i], evs[i]).committed && e.index == f.index
    ensures e == f
  {
    var w0 := RunGood(cs, evs, compacts, i);
    var w := EmittedFrom(cs, evs, compacts, i, w0);
    GoodSafe(cs[i + 1], w);
    BothCommitted(w, e, f);
  }

  /** Any two nodes that emit a committed entry at the same index emit the same entry. */
  lemma EmissionsAgree(cs: seq<Cluster>, evs: seq<Event>, compacts: seq<bool>, i: nat, e: Entry, j: nat, f: Entry)
    requires Run(cs, evs, compacts) && i < |evs| && j < |evs| && Enabled(cs[i], evs[i]) && Enabled(cs[j], evs[j])
    requires e in OutputOf(cs[i], evs[i]).committed && f in OutputOf(cs[j], evs[j]).committed && e.index == f.index
    ensures e == f
  {
    if i == j {
      EmittedTogether(cs, evs, compacts, i, e, f);
    } else if i < j {
      var w, t := EmittedOnce(cs, evs, compacts, i, e);
      EmittedAgain(cs, evs, compacts, i + 1, w, e, t, j, f);
    } else {
      var w, t := EmittedOnce(cs, evs, compacts, j, f);
      EmittedAgain(cs, evs, compacts, j + 1, w, f, t, i, e);
    }
  }

  lemma BothCommitted(w: World, e: Entry, f: Entry)
    requires Safe(w) && (exists t :: CommittedEntry(w, e, t)) && (exists t :: CommittedEntry(w, f, t)) && e.index == f.index
    ensures e == f
  {
    var t :| CommittedEntry(w, e, t);
    var u :| CommittedEntry(w, f, u);
    CommittedEntriesAgree(w, e, t, f, u);
  }

  /** The simulator's `applied_global` assertion never fails. */
  lemma AppliedTable(cs: seq<Cluster>, evs: seq<Event>, compacts: seq<bool>, i: nat, e: Entry)
    requires Run(cs, evs, compacts) && i < |evs| && Enabled(cs[i], evs[i])
    requires e in OutputOf(cs[i], evs[i]).committed && e.index in cs[i].appliedGlobal
    ensures cs[i].appliedGlobal[e.index] == e
  {
    var w := RunGood(cs, evs, compacts, i);
    var w2 := EmittedFrom(cs, evs, compacts, i, w);
    GoodSafe(cs[i + 1], w2);
    assert TablesOk(w, cs[i]);
    TablesGrow(w, w2, cs[i]);
    AppliedAssertion(w2, cs[i].appliedGlobal, e);
  }

  /** A node emits consecutive indexes: they continue what its host had applied, or the snapshot
      that it installed in the same event. */
  lemma EmissionsInOrder(cs: seq<Cluster>, evs: seq<Event>, compacts: seq<bool>, i: nat, k: nat)
    requires Run(cs, evs, compacts) && i < |evs| && Enabled(cs[i], evs[i]) && k < |OutputOf(cs[i], evs[i]).committed|
    ensures var out, h := OutputOf(cs[i], evs[i]), cs[i].hosts[evs[i].id];
            out.committed[k].index == (if out.snapshot.Some? then out.snapshot.value.lastIndex else h.applied) + 1 + k
  {
    var c, ev := cs[i], evs[i];
    assert Steps(c, ev, compacts[i], cs[i + 1]);
    var w := RunGood(cs, evs, compacts, i);
    GoodSafe(c, w);
    var w2 := UpEvent(c, w, ev, compacts[i]);
    GoodSafe(cs[i + 1], w2);
    EmittedNumbered(w2, CtxOf(c, ev.id, c.hosts[ev.id]), React(c.hosts[ev.id].raft.value, ev), k);
  }

  lemma EmittedNumbered(w: World, x: Ctx, n: Node, k: nat)
    requires Safe(w) && Going(w, x, n) && k < |n.out.committed|
    ensures n.out.committed[k].index == (if n.out.snapshot.Some? then n.out.snapshot.value.lastIndex else x.base) + 1 + k
  {
    NodeNumbered(w, x.id);
  }

  // ------------------------------------------------------------- acknowledgements

  /** Once a follower has answered success with match `m` in term `T`, it agrees with the leader of
      `T` through `m`, snapshots included, for as long as it stays in `T`, whatever it installs or loses in
      between.  The leader may be looked at on either side of the follower; looked at before, its log may
      not reach `m` yet. */
  lemma AckRetained(cs: seq<Cluster>, evs: seq<Event>, compacts: seq<bool>, i: nat, m: Message, j: nat, k: nat, b: NodeId)
    returns (lf: seq<Entry>, lb: seq<Entry>)
    requires Run(cs, evs, compacts) && i <= j <= |evs| && k <= |evs| && m in cs[i].net
    requires m.body.AppendEntriesResp? && m.body.success
    requires m.from in cs[j].hosts && m.from in cs[j].cfgs && b in cs[k].hosts && b in cs[k].cfgs
    requires NodeAt(cs[j], m.from).hs.term == m.term == NodeAt(cs[k], b).hs.term && NodeAt(cs[k], b).role == Leader
    ensures m.body.matchIndex <= NodeAt(cs[j], m.from).log.LastIndex()
    ensures j <= k ==> m.body.matchIndex <= NodeAt(cs[k], b).log.LastIndex()
    ensures Alike(NodeAt(cs[j], m.from), lf, NodeAt(cs[k], b), lb, Min(m.body.matchIndex, NodeAt(cs[k], b).log.LastIndex()))
  {
    NetMonotone(cs, evs, compacts, i, j);
    var f, l := NodeAt(cs[j], m.from), NodeAt(cs[k], b);
    if j <= k {
      var w, w2 := RunPairGood(cs, evs, compacts, j, k);
      GoodKnown(cs[k], w2, b);
      AckHolds(cs[j], w, m);
      lf, lb := AckAlike(w, f, m, l, w2.peers[b].log);
    } else {
      var w, w2 := RunPairGood(cs, evs, compacts, k, j);
      GoodKnown(cs[k], w, b);
      AckHolds(cs[j], w2, m);
      lf, lb := AckAlike(w2, f, m, l, w.peers[b].log);
    }
  }

  /** `log` is the leader's log at some moment, before or after the history `w` of the follower. */
  lemma AckAlike(w: World, f: Node, m: Message, l: Node, log: seq<Entry>) returns (lf: seq<Entry>, lb: seq<Entry>)
    requires m.body.AppendEntriesResp? && m.from in w.peers && Whole(f, w.peers[m.from].log) && Whole(l, log)
    requires m.term in w.reigns ==> Agree(w.peers[m.from].log, w.reigns[m.term].log, m.body.matchIndex)
    requires 0 < m.body.matchIndex ==> m.term in w.reigns
    requires m.term in w.reigns ==> log <= w.reigns[m.term].log || w.reigns[m.term].log <= log
    ensures m.body.matchIndex <= f.log.LastIndex()
    ensures (m.term in w.reigns ==> w.reigns[m.term].log <= log) ==> m.body.matchIndex <= l.log.LastIndex()
    ensures Alike(f, lf, l, lb, Min(m.body.matchIndex, l.log.LastIndex()))
  {
    lf, lb := w.peers[m.from].log, log;
    AckedAgree(w, log, m);
    AlikeFrom(f, lf, l, lb, Min(m.body.matchIndex, |lb|));
  }

  lemma AckHolds(c: Cluster, w: World, m: Message)
    requires Good(c, w) && m in c.net && m.body.AppendEntriesResp? && m.body.success && m.from in c.hosts && m.from in c.cfgs
    requires NodeAt(c, m.from).hs.term == m.term
    ensures Known(w, m.from, NodeAt(c, m.from))
    ensures m.term in w.reigns ==> Agree(w.peers[m.from].log, w.reigns[m.term].log, m.body.matchIndex)
    ensures 0 < m.body.matchIndex ==> m.term in w.reigns
  {
    GoodKnown(c, w, m.from);
    assert NetOk(w, c);
    assert MsgOk(w, c.voters, m);
    var p := w.peers[m.from];
    assert AckOk(w, p, m.term);
    if m.term in p.acks { AgreeMonotone(p.log, w.reigns[m.term].log, m.body.matchIndex, p.acks[m.term]); }
  }

  /** `log` is the leader's log at some moment, before or after the history `w`. */
  lemma AckedAgree(w: World, log: seq<Entry>, m: Message)
    requires m.body.AppendEntriesResp? && m.from in w.peers
    requires m.term in w.reigns ==> Agree(w.peers[m.from].log, w.reigns[m.term].log, m.body.matchIndex)
    requires 0 < m.body.matchIndex ==> m.term in w.reigns
    requires m.term in w.reigns ==> log <= w.reigns[m.term].log || w.reigns[m.term].log <= log
    ensures m.body.matchIndex <= |w.peers[m.from].log| && Agree(w.peers[m.from].log, log, Min(m.body.matchIndex, |log|))
    ensures m.term in w.reigns && w.reigns[m.term].log <= log ==> m.body.matchIndex <= |log|
  {
    var la, k := w.peers[m.from].log, Min(m.body.matchIndex, |log|);
    if m.term in w.reigns {
      var lead := w.reigns[m.term].log;
      assert la[..k] == la[..m.body.matchIndex][..k] == lead[..m.body.matchIndex][..k] == lead[..k];
      assert log[..k] == lead[..k];
    }
  }

  lemma {:induction false} NetMonotone(cs: seq<Cluster>, evs: seq<Event>, compacts: seq<bool>, i: nat, j: nat)
    requires Run(cs, evs, compacts) && i <= j <= |evs|
    ensures cs[i].net <= cs[j].net
    decreases j
  {
    if i < j {
      NetMonotone(cs, evs, compacts, i, j - 1);
      assert Steps(cs[j - 1], evs[j - 1], compacts[j - 1], cs[j]);
    }
  }

  // ------------------------------------------------------------- the disk

  /** After every event the disk equals the node's memory, so a restart at any moment rebuilds the
      same term, vote, log, snapshot and voters, and commits again from the snapshot on. */
  lemma DiskMirrorsMemory(cs: seq<Cluster>, evs: seq<Event>, compacts: seq<bool>, i: nat, v: NodeId, rnd: nat)
    requires Run(cs, evs, compacts) && i <= |evs| && v in cs[i].hosts && v in cs[i].cfgs && cs[i].hosts[v].raft.Some?
    ensures var n, h := cs[i].hosts[v].raft.value, cs[i].hosts[v];
            var n2 := New(cs[i].cfgs[v], cs[i].voters, h.disk, rnd);
            && h.disk == Persisted(n.hs, n.log.entries, n.snapshot) && h.applied == n.commit
            && n2.hs == n.hs && n2.log == n.log && n2.snapshot == n.snapshot && n2.commit == n.log.snapIndex
            && Voters(n2) == Voters(n) == cs[i].voters
  {
    var w := RunGood(cs, evs, compacts, i);
    GoodSafe(cs[i], w);
    var h := cs[i].hosts[v];
    assert HostOk(w, cs[i].voters, cs[i].cfgs[v], h);
    NodeVoters(w, cs[i].voters, h.raft.value);
  }

  /** Folding a prefix of configuration changes into the base changes no later voter set. */
  lemma {:induction false} VotersFold(v: seq<NodeId>, es: seq<Entry>, base: Index, k: Index, idx: Index)
    requires Contiguous(es, base) && base <= k <= idx && k <= base + |es|
    ensures VotersAt(VotersAt(v, es, k), es[k - base..], idx) == VotersAt(v, es, idx)
    decreases |es|
  {
    if es != [] && es[0].index <= k {
      VotersFold(ApplyConf(v, es[0].payload), es[1..], base + 1, k, idx);
      assert es[1..][k - (base + 1)..] == es[k - base..];
    }
  }

  /** `compact` leaves the voters, the terms and the entries above the snapshot as they were,
      for every log, with configuration changes in it or not. */
  lemma CompactKeeps(n: Node, applied: Index, data: Kvsm.State, i: Index)
    requires Contiguous(n.log.entries, n.log.snapIndex)
    ensures Voters(Compact(n, applied, data).0) == Voters(n)
    ensures i >= Compact(n, applied, data).0.log.snapIndex ==> Compact(n, applied, data).0.log.TermOf(i) == n.log.TermOf(i)
    ensures i > Compact(n, applied, data).0.log.snapIndex ==> Compact(n, applied, data).0.log.Get(i) == n.log.Get(i)
    ensures Compact(n, applied, data).0.log.LastIndex() == n.log.LastIndex()
  {
    if Compact(n, applied, data).1.Some? {
      VotersFold(n.votersBase, n.log.entries, n.log.snapIndex, applied, n.log.LastIndex());
    }
  }
}
