/** The invariant of the whole cluster, kept by every event. */
module RaftClusterProof {
  import opened Prelude
  import opened RaftTypes
  import opened RaftLogs
  import opened RaftCore
  import opened RaftHost
  import opened RaftProtocol
  import opened RaftActions
  import opened RaftSafety
  import opened RaftLeading
  import opened RaftCoupling
  import opened RaftSending
  import opened RaftDisk
  import opened RaftElecting
  import opened RaftCommitting
  import opened RaftFollowing
  import opened RaftHandling
  import opened RaftStepping
  import Kvsm

  // ------------------------------------------------------------- the invariant

  ghost predicate UpOk(w: World, voters: seq<NodeId>, id: NodeId, h: Host, n: Node) {
    && n.cfg.id == id && NodeOk(w, voters, n) && n.out == NO_OUTPUT
    && h.disk == Persisted(n.hs, n.log.entries, n.snapshot)
    && h.applied == n.commit
    && h.sm == Replay(w.peers[id].log[..n.commit])
  }

  ghost predicate HostOk(w: World, voters: seq<NodeId>, cfg: Config, h: Host) {
    && (h.raft.Some? ==> h.raft.value.cfg == cfg && UpOk(w, voters, cfg.id, h, h.raft.value))
    && (h.raft.None? ==> NodeOk(w, voters, New(cfg, voters, h.disk, 0)) && h.sm == Kvsm.EMPTY && h.applied == 0)
  }

  /** Some leader has committed `e` at its index. */
  ghost predicate CommittedEntry(w: World, e: Entry, t: Term) {
    var committed := t in w.reigns && 0 < e.index <= w.reigns[t].commit <= |w.reigns[t].log| && w.reigns[t].log[e.index - 1] == e;
    committed
  }

  ghost predicate TablesOk(w: World, c: Cluster) {
    var leaders := forall t :: t in c.leadersByTerm ==> t in w.reigns && w.reigns[t].leader == c.leadersByTerm[t];
    var applied := forall i :: i in c.appliedGlobal ==> c.appliedGlobal[i].index == i && exists t :: CommittedEntry(w, c.appliedGlobal[i], t);
    leaders && applied
  }

  ghost predicate NetOk(w: World, c: Cluster) {
    forall m :: m in c.net ==> MsgOk(w, c.voters, m)
  }

  ghost predicate HostsOk(w: World, c: Cluster)
    requires c.hosts.Keys == c.cfgs.Keys
  {
    forall v {:trigger HostOk(w, c.voters, c.cfgs[v], c.hosts[v])} :: v in c.hosts ==>
      HostOk(w, c.voters, c.cfgs[v], c.hosts[v])
  }

  ghost predicate Coupled(c: Cluster, w: World) {
    var fixed := WellConfigured(c.voters, c.cfgs) && Members(w, c.voters) && Plain(w) && c.hosts.Keys == c.cfgs.Keys;
    var outside := NetOk(w, c) && TablesOk(w, c);
    fixed && HostsOk(w, c) && outside
  }

  /** The cluster is in a state the protocol allows; `w` is the history that explains it. */
  ghost predicate Good(c: Cluster, w: World) {
    var good := Safe(w) && Coupled(c, w);
    good
  }

  // ------------------------------------------------------------- entering and leaving an event

  function CtxOf(c: Cluster, id: NodeId, h: Host): Ctx
    requires id in c.cfgs
  {
    Ctx(id, c.cfgs[id], c.voters, h.disk, h.applied)
  }

  lemma EventStarts(c: Cluster, w: World, id: NodeId, h: Host, n: Node)
    requires Coupled(c, w) && id in c.hosts && UpOk(w, c.voters, id, h, n) && n.cfg == c.cfgs[id]
    ensures Going(w, CtxOf(c, id, h), n) && Quiet(n)
  {
    assert w.peers[id].log[n.commit..n.commit] == [];
  }

  /** The state machine and the applied index after the committed entries were applied. */
  lemma DrainApplies(sm: Kvsm.State, log: seq<Entry>, from: Index, commit: Index, es: seq<Entry>)
    requires from <= commit <= |log| && sm == Replay(log[..from]) && es == log[from..commit] && Numbered(log)
    ensures ApplyAll(sm, es) == Replay(log[..commit])
    ensures (if es == [] then from else es[|es| - 1].index) == commit
  {
    ApplyConcat(Kvsm.EMPTY, log[..from], es);
    assert log[..from] + es == log[..commit];
  }

  /** What a node has applied is not rewritten by its own step. */
  lemma AppliedStable(w: World, w2: World, id: NodeId, c: Index)
    requires Safe(w) && Safe(w2) && Grows(w, w2) && id in w.peers
    requires c <= w.peers[id].commit && c <= w2.peers[id].commit
    ensures Agree(w.peers[id].log, w2.peers[id].log, c)
  {
    var p, p2 := w.peers[id], w2.peers[id];
    assert PeerOk(w, p) && PeerOk(w2, p2);
    CommittedGrows(w, w2, p.log, p.log, p.commit, p.term, p.term);
    CommittedPrefixesAgree(w2, p.log, p.commit, p.term, p2.log, p2.commit, p2.term);
    AgreeMonotone(p.log, p2.log, c, Min(p.commit, p2.commit));
  }

  lemma NodeNumbered(w: World, id: NodeId)
    requires Safe(w) && id in w.peers
    ensures Numbered(w.peers[id].log)
  {
    assert PeerOk(w, w.peers[id]);
    NumberedLog(w.reigns, w.peers[id].log);
  }

  /** The snapshot a node has just installed holds the state of the prefix it replaces. */
  lemma InstalledData(w: World, x: Ctx, n: Node)
    requires Going(w, x, n) && n.out.snapshot.Some?
    ensures n.out.snapshot.value.lastIndex == n.log.snapIndex
    ensures n.out.snapshot.value.data == Replay(w.peers[x.id].log[..n.log.snapIndex])
  {}

  lemma EventDrains(w: World, w2: World, x: Ctx, h: Host, n: Node)
    requires Safe(w) && Safe(w2) && By(w, w2, x.id) && Going(w2, x, n)
    requires x.id in w.peers && h.disk == x.disk && h.applied == x.base == w.peers[x.id].commit
    requires x.base <= |w.peers[x.id].log| && h.sm == Replay(w.peers[x.id].log[..x.base])
    ensures UpOk(w2, x.voters, x.id, Drain(h, n), n.(out := NO_OUTPUT))
  {
    EventApplies(w, w2, x, h, n);
    assert NodeOk(w2, x.voters, n.(out := NO_OUTPUT));
  }

  lemma EventApplies(w: World, w2: World, x: Ctx, h: Host, n: Node)
    requires Safe(w) && Safe(w2) && By(w, w2, x.id) && Going(w2, x, n)
    requires x.id in w.peers && h.disk == x.disk && h.applied == x.base == w.peers[x.id].commit
    requires x.base <= |w.peers[x.id].log| && h.sm == Replay(w.peers[x.id].log[..x.base])
    ensures Drain(h, n).applied == n.commit <= |w2.peers[x.id].log|
    ensures Drain(h, n).sm == Replay(w2.peers[x.id].log[..n.commit])
  {
    var log := w2.peers[x.id].log;
    NodeNumbered(w2, x.id);
    if n.out.snapshot.Some? {
      InstalledData(w2, x, n);
      DrainApplies(n.out.snapshot.value.data, log, n.log.snapIndex, n.commit, n.out.committed);
    } else {
      AppliedStable(w, w2, x.id, x.base);
      DrainApplies(h.sm, log, x.base, n.commit, n.out.committed);
    }
  }

  // ------------------------------------------------------------- compaction

  lemma CompactView(l: RaftLog, log: seq<Entry>, k: Index)
    requires LogView(l, log) && l.snapIndex < k <= |log|
    ensures l.TermOf(k) == Some(TermAt(log, k)) && LogView(l.Compact(k, TermAt(log, k)), log)
  {
    assert log[l.snapIndex..][k - l.snapIndex..] == log[k..];
  }

  /** Compaction changes neither the full log nor the voters (`voters_at` fold). */
  lemma CompactOk(w: World, voters: seq<NodeId>, id: NodeId, h: Host, n: Node)
    requires Safe(w) && Plain(w) && UpOk(w, voters, id, h, n) && h.raft == Some(n)
    ensures CompactHost(h).raft.Some? && CompactHost(h).raft.value.cfg == n.cfg
    ensures UpOk(w, voters, id, CompactHost(h), CompactHost(h).raft.value)
    ensures CompactHost(h).raft.value.hs == n.hs && CompactHost(h).raft.value.role == n.role
  {
    if h.applied > n.log.snapIndex { CompactTakes(w, voters, id, h, n); }
  }

  lemma CompactTakes(w: World, voters: seq<NodeId>, id: NodeId, h: Host, n: Node)
    requires Safe(w) && Plain(w) && UpOk(w, voters, id, h, n) && h.raft == Some(n) && h.applied > n.log.snapIndex
    ensures CompactHost(h).raft.Some? && CompactHost(h).raft.value.cfg == n.cfg
    ensures UpOk(w, voters, id, CompactHost(h), CompactHost(h).raft.value)
    ensures CompactHost(h).raft.value.hs == n.hs && CompactHost(h).raft.value.role == n.role
  {
    var log, k := w.peers[id].log, n.commit;
    assert PeerOk(w, w.peers[id]);
    CompactView(n.log, log, k);
    PlainPrefix(w, voters, n, k);
    EntriesContiguous(w, n.log, log);
    AboveContiguous(n.log.entries, n.log.snapIndex, k);
    var n2 := CompactHost(h).raft.value;
    assert n2 == n.(log := n.log.Compact(k, TermAt(log, k)), snapshot := n2.snapshot);
    assert RoleOk(w, n2);
  }

  lemma EntriesContiguous(w: World, l: RaftLog, log: seq<Entry>)
    requires LogOk(w.reigns, log) && LogView(l, log)
    ensures Contiguous(l.entries, l.snapIndex)
  {
    forall i | 0 <= i < |l.entries| ensures l.entries[i].index == l.snapIndex + 1 + i {
      IndexOfEntry(w.reigns, log, l.snapIndex + i);
    }
  }

  lemma PlainPrefix(w: World, voters: seq<NodeId>, n: Node, idx: Index)
    requires Safe(w) && Plain(w) && NodeOk(w, voters, n)
    ensures VotersAt(n.votersBase, n.log.entries, idx) == voters
  {
    var p := w.peers[n.cfg.id];
    assert PeerOk(w, p);
    forall i | 0 <= i < |n.log.entries| ensures !n.log.entries[i].payload.Conf? {
      PlainLog(w, p.log, n.log.snapIndex + i);
    }
    PlainVoters(n.votersBase, n.log.entries, idx);
  }

  lemma SettleOk(w: World, voters: seq<NodeId>, id: NodeId, h: Host, n: Node, compact: bool)
    requires Safe(w) && Plain(w) && UpOk(w, voters, id, Drain(h, n), n.(out := NO_OUTPUT))
    ensures HostOk(w, voters, n.cfg, Settle(h, n, compact)) && Settle(h, n, compact).raft.Some?
  {
    if compact { CompactOk(w, voters, id, Drain(h, n), n.(out := NO_OUTPUT)); }
  }

  // ------------------------------------------------------------- the tables of the simulator

  lemma CommittedEntriesAgree(w: World, a: Entry, ta: Term, b: Entry, tb: Term)
    requires Safe(w) && CommittedEntry(w, a, ta) && CommittedEntry(w, b, tb) && a.index == b.index
    ensures a == b
  {
    var lo, hi := Min(ta, tb), Max(ta, tb);
    LeaderCompleteness(w, lo, hi);
    var m, i := w.reigns[lo].commit, a.index - 1;
    assert w.reigns[hi].log[..m][i] == w.reigns[lo].log[..m][i];
  }

  lemma CommittedEntryGrows(w: World, w2: World, e: Entry, t: Term)
    requires Grows(w, w2) && Safe(w2) && CommittedEntry(w, e, t)
    ensures CommittedEntry(w2, e, t)
  {
    assert ReignOk(w2, t);
  }

  /** Every entry a node emits was committed by some leader. */
  lemma EmittedCommitted(w: World, x: Ctx, n: Node, e: Entry) returns (t: Term)
    requires Safe(w) && Going(w, x, n) && e in n.out.committed
    ensures CommittedEntry(w, e, t)
  {
    var log := w.peers[x.id].log;
    assert PeerOk(w, w.peers[x.id]);
    NodeNumbered(w, x.id);
    var k := EmittedAt(x.base, n, log, e);
    t := PrefixEntryCommitted(w, log, n.commit, n.hs.term, k);
  }

  lemma EmittedAt(base: Index, n: Node, log: seq<Entry>, e: Entry) returns (k: Index)
    requires Emitted(base, n, log) && e in n.out.committed
    ensures k < n.commit <= |log| && log[k] == e
  {
    var from := if n.out.snapshot.Some? then n.out.snapshot.value.lastIndex else base;
    var i :| 0 <= i < |n.out.committed| && n.out.committed[i] == e;
    k := from + i;
  }

  lemma PrefixEntryCommitted(w: World, log: seq<Entry>, c: Index, b: Term, k: Index) returns (t: Term)
    requires Safe(w) && Numbered(log) && k < c <= |log| && Committed(w, log, c, b)
    ensures CommittedEntry(w, log[k], t)
  {
    t :| t <= b && CommittedBy(w, log, c, t);
    assert ReignOk(w, t);
    assert log[k] == log[..c][k] == w.reigns[t].log[..c][k];
  }

  ghost predicate AllCommitted(w: World, es: seq<Entry>) {
    forall e :: e in es ==> exists t :: CommittedEntry(w, e, t)
  }

  ghost predicate AppliedOk(w: World, m: map<Index, Entry>) {
    forall i :: i in m ==> m[i].index == i && exists t :: CommittedEntry(w, m[i], t)
  }

  lemma {:induction false} RecordOk(w: World, m: map<Index, Entry>, es: seq<Entry>)
    requires AppliedOk(w, m) && AllCommitted(w, es)
    ensures AppliedOk(w, Record(m, es))
    decreases |es|
  {
    if es != [] {
      assert es[0] in es;
      var m2 := if es[0].index in m then m else m[es[0].index := es[0]];
      assert AppliedOk(w, m2);
      assert forall e :: e in es[1..] ==> e in es;
      RecordOk(w, m2, es[1..]);
    }
  }

  /** State-machine safety as the simulator asserts it: an emitted entry equals the one recorded at its index. */
  lemma AppliedAssertion(w: World, m: map<Index, Entry>, e: Entry)
    requires Safe(w) && AppliedOk(w, m) && (exists t :: CommittedEntry(w, e, t)) && e.index in m
    ensures m[e.index] == e
  {
    var t :| CommittedEntry(w, e, t);
    var u :| CommittedEntry(w, m[e.index], u);
    CommittedEntriesAgree(w, e, t, m[e.index], u);
  }

  // ------------------------------------------------------------- one event keeps the invariant

  lemma BystanderHostOk(w: World, w2: World, k: NodeId, voters: seq<NodeId>, cfg: Config, h: Host)
    requires By(w, w2, k) && cfg.id != k && HostOk(w, voters, cfg, h)
    ensures HostOk(w2, voters, cfg, h)
  {
    if h.raft.Some? {
      BystanderOk(w, w2, k, voters, h.raft.value);
    } else {
      BystanderOk(w, w2, k, voters, New(cfg, voters, h.disk, 0));
    }
  }

  lemma TablesGrow(w: World, w2: World, c: Cluster)
    requires Grows(w, w2) && Safe(w2) && TablesOk(w, c)
    ensures TablesOk(w2, c)
  {
    forall i | i in c.appliedGlobal
      ensures c.appliedGlobal[i].index == i && exists t :: CommittedEntry(w2, c.appliedGlobal[i], t)
    {
      var t :| CommittedEntry(w, c.appliedGlobal[i], t);
      CommittedEntryGrows(w, w2, c.appliedGlobal[i], t);
    }
  }

  lemma NetGrows(w: World, w2: World, voters: seq<NodeId>, net: set<Message>, sent: seq<Message>)
    requires Grows(w, w2) && (forall m :: m in net ==> MsgOk(w, voters, m)) && SentOk(w2, voters, sent)
    ensures forall m :: m in net + (set m | m in sent) ==> MsgOk(w2, voters, m)
  {
    forall m | m in net + (set m | m in sent) ensures MsgOk(w2, voters, m) {
      if m in net {
        MsgOkGrows(w, w2, voters, m);
      } else {
        var i :| 0 <= i < |sent| && sent[i] == m;
      }
    }
  }

  /** One host changed, by an action of its own node. */
  lemma HostsKept(w: World, w2: World, c: Cluster, id: NodeId, h: Host)
    requires By(w, w2, id) && c.hosts.Keys == c.cfgs.Keys && HostsOk(w, c) && id in c.hosts
    requires forall v :: v in c.cfgs ==> c.cfgs[v].id == v
    requires HostOk(w2, c.voters, c.cfgs[id], h)
    ensures c.hosts[id := h].Keys == c.cfgs.Keys
    ensures HostsOk(w2, c.(hosts := c.hosts[id := h]))
  {
    var c2 := c.(hosts := c.hosts[id := h]);
    assert c2.hosts.Keys == c.hosts.Keys;
    forall v | v in c2.hosts ensures HostOk(w2, c2.voters, c2.cfgs[v], c2.hosts[v]) {
      if v != id {
        assert HostOk(w, c.voters, c.cfgs[v], c.hosts[v]);
        BystanderHostOk(w, w2, id, c.voters, c.cfgs[v], c.hosts[v]);
      }
    }
  }

  lemma FinishTables(w: World, x: Ctx, c: Cluster, h: Host, n: Node, compact: bool)
    requires Safe(w) && TablesOk(w, c) && Going(w, x, n)
    ensures TablesOk(w, Finish(c, x.id, h, n, compact))
  {
    assert AllCommitted(w, n.out.committed) by {
      forall e | e in n.out.committed ensures exists t :: CommittedEntry(w, e, t) {
        var t := EmittedCommitted(w, x, n, e);
      }
    }
    RecordOk(w, c.appliedGlobal, n.out.committed);
    if n.role == Leader { assert LeaderOk(w, n); }
  }

  /** A node that ran one event, coupled again after its output was drained. */
  lemma FinishCoupled(c: Cluster, w: World, w2: World, x: Ctx, h: Host, n: Node, compact: bool)
    requires Safe(w) && Safe(w2) && Coupled(c, w) && By(w, w2, x.id) && x.id in c.hosts
    requires Going(w2, x, n) && x.cfg == c.cfgs[x.id] && x.voters == c.voters
    requires UpOk(w2, c.voters, x.id, Drain(h, n), n.(out := NO_OUTPUT))
    ensures Coupled(Finish(c, x.id, h, n, compact), w2)
  {
    SettleOk(w2, c.voters, x.id, h, n, compact);
    HostsKept(w, w2, c, x.id, Settle(h, n, compact));
    NetGrows(w, w2, c.voters, c.net, n.out.messages);
    TablesGrow(w, w2, c);
    FinishTables(w2, x, c, h, n, compact);
  }

  lemma UpEvent(c: Cluster, w: World, ev: Event, compact: bool) returns (w2: World)
    requires Safe(w) && Coupled(c, w) && Enabled(c, ev) && !ev.Crash? && !ev.Restart?
    ensures By(w, w2, ev.id) && Good(Next(c, ev, compact), w2)
    ensures Going(w2, CtxOf(c, ev.id, c.hosts[ev.id]), React(c.hosts[ev.id].raft.value, ev))
  {
    var id, h := ev.id, c.hosts[ev.id];
    var n, x := h.raft.value, CtxOf(c, id, h);
    assert HostOk(w, c.voters, c.cfgs[id], h);
    EventStarts(c, w, id, h, n);
    w2 := ReactGoing(w, x, n, ev);
    EventDrains(w, w2, x, h, React(n, ev));
    FinishCoupled(c, w, w2, x, h, React(n, ev), compact);
  }

  // ------------------------------------------------------------- crash and restart

  /** Everything but the commit index comes back from the disk. */
  lemma CrashedNodeOk(w: World, voters: seq<NodeId>, cfg: Config, h: Host, n: Node) returns (w2: World)
    requires Safe(w) && n.cfg == cfg && UpOk(w, voters, cfg.id, h, n)
    ensures By(w, w2, cfg.id) && Safe(w2) && HostOk(w2, voters, cfg, Host(None, h.disk, Kvsm.EMPTY, 0))
    ensures (Plain(w) ==> Plain(w2)) && (Members(w, voters) ==> Members(w2, voters))
  {
    var p := w.peers[cfg.id];
    assert PeerOk(w, p);
    CommittedShorter(w, p.log, p.commit, n.log.snapIndex, p.term);
    SetCommitBy(w, cfg.id, n.log.snapIndex);
    w2 := SetCommit(w, cfg.id, n.log.snapIndex);
  }

  lemma DownCoupled(c: Cluster, w: World, w2: World, id: NodeId, h: Host)
    requires Coupled(c, w) && Safe(w2) && By(w, w2, id) && Members(w2, c.voters) && Plain(w2) && id in c.hosts
    requires HostOk(w2, c.voters, c.cfgs[id], h)
    ensures Coupled(c.(hosts := c.hosts[id := h]), w2)
  {
    var c2 := c.(hosts := c.hosts[id := h]);
    HostsKept(w, w2, c, id, h);
    NetKept(w, w2, c);
    TablesGrow(w, w2, c);
    SameOutside(w2, c, c2);
  }

  lemma NetKept(w: World, w2: World, c: Cluster)
    requires Grows(w, w2) && NetOk(w, c)
    ensures NetOk(w2, c)
  {
    forall m | m in c.net ensures MsgOk(w2, c.voters, m) { MsgOkGrows(w, w2, c.voters, m); }
  }

  lemma SameOutside(w: World, c: Cluster, c2: Cluster)
    requires NetOk(w, c) && TablesOk(w, c) && c2 == c.(hosts := c2.hosts)
    ensures NetOk(w, c2) && TablesOk(w, c2)
  {}

  lemma CrashEvent(c: Cluster, w: World, id: NodeId, compact: bool) returns (w2: World)
    requires Safe(w) && Coupled(c, w) && id in c.hosts && c.hosts[id].raft.Some?
    ensures By(w, w2, id) && Good(Next(c, Crash(id), compact), w2)
  {
    var h := c.hosts[id];
    assert HostOk(w, c.voters, c.cfgs[id], h);
    w2 := CrashedNodeOk(w, c.voters, c.cfgs[id], h, h.raft.value);
    var down := Host(None, h.disk, Kvsm.EMPTY, 0);
    DownCoupled(c, w, w2, id, down);
  }

  lemma ReloadedOk(w: World, voters: seq<NodeId>, cfg: Config, h: Host, rnd: nat)
    requires HostOk(w, voters, cfg, h) && h.raft.None?
    ensures UpOk(w, voters, cfg.id, Reloaded(h), New(cfg, voters, h.disk, rnd))
  {
    var n := New(cfg, voters, h.disk, 0);
    assert NodeOk(w, voters, n);
    assert w.peers[cfg.id].log[..0] == [];
  }

  lemma RestartEvent(c: Cluster, w: World, id: NodeId, rnd: nat, compact: bool)
    requires Safe(w) && Coupled(c, w) && id in c.hosts && c.hosts[id].raft.None?
    ensures Good(Next(c, Restart(id, rnd), compact), w)
  {
    var h, h1 := c.hosts[id], Reloaded(c.hosts[id]);
    assert HostOk(w, c.voters, c.cfgs[id], h);
    ReloadedOk(w, c.voters, c.cfgs[id], h, rnd);
    var n, x := New(c.cfgs[id], c.voters, h.disk, rnd), CtxOf(c, id, h1);
    EventStarts(c, w, id, h1, n);
    ByReflexive(w, id);
    EventDrains(w, w, x, h1, n);
    FinishCoupled(c, w, w, x, h1, n, compact);
    RestartIs(c, id, rnd, compact);
  }

  lemma RestartIs(c: Cluster, id: NodeId, rnd: nat, compact: bool)
    requires id in c.hosts && id in c.cfgs && c.hosts[id].raft.None?
    ensures Next(c, Restart(id, rnd), compact) ==
            Finish(c, id, Reloaded(c.hosts[id]), New(c.cfgs[id], c.voters, c.hosts[id].disk, rnd), compact)
  {}

  lemma EventOk(c: Cluster, w: World, ev: Event, compact: bool) returns (w2: World)
    requires Good(c, w) && Enabled(c, ev) && ev.id in c.cfgs
    ensures By(w, w2, ev.id) && Good(Next(c, ev, compact), w2)
  {
    match ev
    case Crash(id) => w2 := CrashEvent(c, w, id, compact);
    case Restart(id, rnd) =>
      RestartEvent(c, w, id, rnd, compact);
      ByReflexive(w, id);
      w2 := w;
    case _ => w2 := UpEvent(c, w, ev, compact);
  }

  // ------------------------------------------------------------- every run

  const NEWCOMER: Peer := Peer(0, None, [], 0, map[], map[], map[])

  function FirstWorld(voters: seq<NodeId>): World {
    World(map v | v in voters :: NEWCOMER, map[])
  }

  lemma FirstSafe(voters: seq<NodeId>)
    requires voters != [] && forall i, j :: 0 <= i < j < |voters| ==> voters[i] != voters[j]
    ensures Safe(FirstWorld(voters)) && Plain(FirstWorld(voters)) && Members(FirstWorld(voters), voters)
  {}

  lemma InitCoupled(c: Cluster)
    requires Init(c)
    ensures Safe(FirstWorld(c.voters)) && Coupled(c, FirstWorld(c.voters))
  {
    var w := FirstWorld(c.voters);
    FirstSafe(c.voters);
    forall v | v in c.hosts ensures HostOk(w, c.voters, c.cfgs[v], c.hosts[v]) {
      var rnd: nat :| c.hosts[v] == Host(Some(New(c.cfgs[v], c.voters, BLANK, rnd)), BLANK, Kvsm.EMPTY, 0);
      assert w.peers[v] == NEWCOMER;
    }
  }

  lemma StepGood(c: Cluster, w: World, ev: Event, compact: bool, c2: Cluster) returns (w2: World)
    requires Good(c, w) && Steps(c, ev, compact, c2)
    ensures Good(c2, w2) && By(w, w2, ev.id) && Grows(w, w2)
  {
    w2 := EventOk(c, w, ev, compact);
  }

  lemma RunStarts(cs: seq<Cluster>, evs: seq<Event>, compacts: seq<bool>) returns (w: World)
    requires Run(cs, evs, compacts)
    ensures Good(cs[0], w)
  {
    InitCoupled(cs[0]);
    w := FirstWorld(cs[0].voters);
  }

  lemma {:induction false} RunContinues(cs: seq<Cluster>, evs: seq<Event>, compacts: seq<bool>, i: nat, w: World, j: nat)
    returns (w2: World)
    requires Run(cs, evs, compacts) && i <= j <= |evs| && Good(cs[i], w)
    ensures Good(cs[j], w2) && Grows(w, w2)
    decreases j
  {
    if i == j {
      ByReflexive(w, 0);
      w2 := w;
    } else {
      var w1 := RunContinues(cs, evs, compacts, i, w, j - 1);
      w2 := StepGood(cs[j - 1], w1, evs[j - 1], compacts[j - 1], cs[j]);
      GrowsTransitive(w, w1, w2);
    }
  }

  /** Every state of every run is good. */
  lemma RunGood(cs: seq<Cluster>, evs: seq<Event>, compacts: seq<bool>, i: nat) returns (w: World)
    requires Run(cs, evs, compacts) && i <= |evs|
    ensures Good(cs[i], w)
  {
    var w0 := RunStarts(cs, evs, compacts);
    w := RunContinues(cs, evs, compacts, 0, w0, i);
  }

  /** Two states of a run, and a history of the later that extends a history of the earlier. */
  lemma RunPairGood(cs: seq<Cluster>, evs: seq<Event>, compacts: seq<bool>, i: nat, j: nat) returns (w: World, w2: World)
    requires Run(cs, evs, compacts) && i <= j <= |evs|
    ensures Good(cs[i], w) && Good(cs[j], w2) && Grows(w, w2)
  {
    w := RunGood(cs, evs, compacts, i);
    w2 := RunContinues(cs, evs, compacts, i, w, j);
  }
}
