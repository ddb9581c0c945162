/** The simulator's tables and what an event leaves behind, over whole runs: the table of applied entries has no gaps, every
    replica's state is what the commands in it give, and the table of leaders is the history of who led
    (crates/sim/src/cluster.rs:402-513). */
module RaftTables {
  import opened Prelude
  import opened RaftTypes
  import opened RaftLogs
  import opened RaftCore
  import opened RaftHost
  import opened RaftActions
  import opened RaftProtocol
  import opened RaftSafety
  import opened RaftCoupling
  import opened RaftClusterProof
  import opened RaftTheorems
  import opened RaftReadSafety
  import opened RaftOrigins
  import RaftRules
  import RaftFollowing
  import KvsmTheorems
  import KvsmHistory
  import WglLocality
  import Kvsm

  // ------------------------------------------------------------- the table of applied entries

  /** The table has an entry at every index up to `k`. */
  ghost predicate Filled(c: Cluster, k: Index) { forall i: Index :: 0 < i <= k ==> i in c.appliedGlobal }

  ghost predicate CommitsFilled(c: Cluster) { forall v :: v in c.hosts && v in c.cfgs ==> Filled(c, NodeAt(c, v).commit) }

  /** Every entry passes, and every snapshot of entries that are all in the table. */
  ghost function Covered(c: Cluster): Test { Test((e: Entry) => true, (s: Snapshot) => Filled(c, s.lastIndex)) }

  lemma {:induction false} RecordHas(m: map<Index, Entry>, es: seq<Entry>)
    ensures forall i :: i in Record(m, es) <==> i in m || exists e :: e in es && e.index == i
    ensures forall i :: i in m ==> Record(m, es)[i] == m[i]
    ensures forall i :: i in Record(m, es) && i !in m ==> Record(m, es)[i] in es
    decreases |es|
  {
    if es != [] {
      var m1 := if es[0].index in m then m else m[es[0].index := es[0]];
      RecordHas(m1, es[1..]);
      assert es == [es[0]] + es[1..];
      forall i ensures i in Record(m, es) <==> i in m || exists e :: e in es && e.index == i {
        if exists e :: e in es && e.index == i { var e :| e in es && e.index == i; assert e == es[0] || e in es[1..]; }
        assert es[0] in es;
      }
    }
  }

  /** A good node's snapshot ends at or below its commit. */
  lemma SnapshotBelow(c: Cluster, w: World, v: NodeId)
    requires Good(c, w) && v in c.hosts && v in c.cfgs
    ensures NodeAt(c, v).snapshot.Some? ==> NodeAt(c, v).snapshot.value.lastIndex <= NodeAt(c, v).commit
  {
    assert HostOk(w, c.voters, c.cfgs[v], c.hosts[v]);
    assert NodeOk(w, c.voters, NodeAt(c, v));
  }

  lemma SnapshotsCovered(c: Cluster, w: World)
    requires Good(c, w) && CommitsFilled(c)
    ensures LogsOk(Covered(c), c)
  {
    forall v | v in c.hosts && v in c.cfgs ensures SnapOk(Covered(c), NodeAt(c, v).snapshot) {
      SnapshotBelow(c, w, v);
      assert Filled(c, NodeAt(c, v).commit);
    }
  }

  /** What an ordinary event leaves behind, as far as the table is concerned. */
  ghost predicate Accounted(c: Cluster, id: NodeId, w2: World, r: Node, c2: Cluster) {
    && id in c.hosts && id in c.cfgs && c.hosts[id].raft.Some? && id in c2.hosts
    && c2.cfgs == c.cfgs && c2.voters == c.voters && c2.hosts == c.hosts[id := c2.hosts[id]] && NodeAt(c2, id).commit == r.commit
    && Safe(w2) && Going(w2, CtxOf(c, id, c.hosts[id]), r) && c.hosts[id].applied <= NodeAt(c, id).commit
    && c2.appliedGlobal == Record(c.appliedGlobal, r.out.committed)
  }

  lemma FinishRecords(c: Cluster, id: NodeId, w2: World, n: Node, compact: bool)
    requires id in c.hosts && id in c.cfgs && c.hosts[id].raft.Some? && c.hosts[id].applied <= NodeAt(c, id).commit
    requires Safe(w2) && Going(w2, CtxOf(c, id, c.hosts[id]), n)
    ensures Accounted(c, id, w2, n, Finish(c, id, c.hosts[id], n, compact))
  {
    var m := SettledEntries(c.hosts[id], n, compact);
  }

  lemma RecordedAfter(c: Cluster, w: World, ev: Event, compact: bool) returns (w2: World)
    requires Good(c, w) && Enabled(c, ev) && ev.id in c.cfgs && !ev.Crash? && !ev.Restart?
    ensures Accounted(c, ev.id, w2, React(c.hosts[ev.id].raft.value, ev), Next(c, ev, compact))
  {
    w2 := UpEvent(c, w, ev, compact);
    GoodSafe(Next(c, ev, compact), w2);
    AppliedBelow(c, w, ev.id);
    FinishRecords(c, ev.id, w2, React(c.hosts[ev.id].raft.value, ev), compact);
  }

  lemma FilledReact(c: Cluster, w: World, ev: Event, compact: bool)
    requires Good(c, w) && Enabled(c, ev) && ev.id in c.cfgs && !ev.Crash? && !ev.Restart? && CommitsFilled(c) && WireOk(Covered(c), c)
    ensures CommitsFilled(Next(c, ev, compact)) && WireOk(Covered(Next(c, ev, compact)), Next(c, ev, compact))
  {
    SnapshotsCovered(c, w);
    ReactStep(Covered(c), c, w, ev);
    var w2 := RecordedAfter(c, w, ev, compact);
    FilledAfter(c, ev.id, w2, React(c.hosts[ev.id].raft.value, ev), Next(c, ev, compact));
  }

  lemma FilledAfter(c: Cluster, id: NodeId, w2: World, r: Node, c2: Cluster)
    requires Accounted(c, id, w2, r, c2) && CommitsFilled(c) && SnapOk(Covered(c), r.out.snapshot) && WireOk(Covered(c), c2)
    ensures CommitsFilled(c2) && WireOk(Covered(c2), c2)
  {
    RecordHas(c.appliedGlobal, r.out.committed);
    NewlyFilled(c, id, w2, r, c2);
    forall v | v in c2.hosts && v in c2.cfgs ensures Filled(c2, NodeAt(c2, v).commit) {
      if v != id { assert NodeAt(c2, v) == NodeAt(c, v) && Filled(c, NodeAt(c, v).commit); }
    }
    forall x | x in c2.net && x.body.InstallSnapshot? ensures Filled(c2, x.body.snapshot.lastIndex) { assert MessageOk(Covered(c), x); }
  }

  lemma NewlyFilled(c: Cluster, id: NodeId, w2: World, r: Node, c2: Cluster)
    requires Accounted(c, id, w2, r, c2) && CommitsFilled(c) && SnapOk(Covered(c), r.out.snapshot)
    requires forall i :: i in c2.appliedGlobal <==> i in c.appliedGlobal || exists e :: e in r.out.committed && e.index == i
    ensures Filled(c2, r.commit)
  {
    var x := CtxOf(c, id, c.hosts[id]);
    var from := if r.out.snapshot.Some? then r.out.snapshot.value.lastIndex else x.base;
    assert Filled(c, from) by { assert Filled(c, NodeAt(c, id).commit); }
    forall i: Index | 0 < i <= r.commit ensures i in c2.appliedGlobal {
      if i > from {
        EmittedNumbered(w2, x, r, i - from - 1);
        assert r.out.committed[i - from - 1] in r.out.committed;
      }
    }
  }

  lemma {:induction false} FilledHolds(cs: seq<Cluster>, evs: seq<Event>, compacts: seq<bool>, k: nat)
    requires Run(cs, evs, compacts) && k <= |evs|
    ensures CommitsFilled(cs[k]) && WireOk(Covered(cs[k]), cs[k])
    decreases k
  {
    if k == 0 {
      CommitsAtFirst(cs[0]);
    } else {
      FilledHolds(cs, evs, compacts, k - 1);
      FilledInRun(cs, evs, compacts, k - 1);
    }
  }

  lemma FilledInRun(cs: seq<Cluster>, evs: seq<Event>, compacts: seq<bool>, k: nat)
    requires Run(cs, evs, compacts) && k < |evs| && CommitsFilled(cs[k]) && WireOk(Covered(cs[k]), cs[k])
    ensures CommitsFilled(cs[k + 1]) && WireOk(Covered(cs[k + 1]), cs[k + 1])
  {
    var w := RunGood(cs, evs, compacts, k);
    assert Steps(cs[k], evs[k], compacts[k], cs[k + 1]);
    FilledStep(cs[k], w, evs[k], compacts[k], cs[k + 1]);
  }

  lemma FilledStep(c: Cluster, w: World, ev: Event, compact: bool, c2: Cluster)
    requires Good(c, w) && Steps(c, ev, compact, c2) && CommitsFilled(c) && WireOk(Covered(c), c)
    ensures CommitsFilled(c2) && WireOk(Covered(c2), c2)
  {
    if ev.Crash? || ev.Restart? {
      QuietEntries(c, w, ev, compact);
      FilledQuiet(c, c2, ev.id);
    } else {
      FilledReact(c, w, ev, compact);
    }
  }

  lemma CommitsAtFirst(c: Cluster)
    requires Init(c)
    ensures CommitsFilled(c)
  {
    forall v | v in c.hosts && v in c.cfgs ensures NodeAt(c, v).commit == 0 {
      var rnd: nat :| c.hosts[v] == Host(Some(New(c.cfgs[v], c.voters, BLANK, rnd)), BLANK, Kvsm.EMPTY, 0);
    }
  }

  lemma FilledQuiet(c: Cluster, c2: Cluster, id: NodeId)
    requires CommitsFilled(c) && WireOk(Covered(c), c) && c2.net == c.net && c2.cfgs == c.cfgs && c2.voters == c.voters && id in c.hosts && id in c.cfgs
    requires id in c2.hosts && c2.hosts == c.hosts[id := c2.hosts[id]] && NodeAt(c2, id).commit <= NodeAt(c, id).commit && c2.appliedGlobal == c.appliedGlobal
    ensures CommitsFilled(c2) && WireOk(Covered(c2), c2)
  {
    forall v | v in c2.hosts && v in c2.cfgs ensures Filled(c2, NodeAt(c2, v).commit) {
      assert Filled(c, NodeAt(c, v).commit);
      if v != id { assert NodeAt(c2, v) == NodeAt(c, v); }
    }
    forall x | x in c2.net && x.body.InstallSnapshot? ensures Filled(c2, x.body.snapshot.lastIndex) { assert MessageOk(Covered(c), x); }
  }

  // ------------------------------------------------------------- the state is the table

  /** The client commands of a log, in order. */
  function Commands(log: seq<Entry>): seq<Kvsm.Command> {
    if log == [] then []
    else
      var e := log[|log| - 1];
      Commands(log[..|log| - 1]) + (if e.payload.Normal? then [e.payload.cmd] else [])
  }

  /** Replaying a log applies its commands, one after the other, and nothing else. */
  lemma {:induction false} ReplayIsCommands(log: seq<Entry>)
    ensures Replay(log) == KvsmTheorems.RunState(Kvsm.EMPTY, Commands(log))
    decreases |log|
  {
    if log != [] {
      var k := |log| - 1;
      ReplayIsCommands(log[..k]);
      if log[k].payload.Normal? {
        var cs := Commands(log[..k]);
        assert (cs + [log[k].payload.cmd])[..|cs|] == cs;
      } else {
        assert Commands(log) == Commands(log[..k]);
      }
    }
  }

  /** The table's first `k` entries. */
  ghost function TableUpTo(c: Cluster, k: Index): seq<Entry>
    requires Filled(c, k)
  {
    seq(k, i requires 0 <= i < k => c.appliedGlobal[i + 1])
  }

  /** The log of a good host agrees with the table as far as the host has applied it. */
  lemma TableIsLog(c: Cluster, w: World, v: NodeId, k: Index)
    requires Good(c, w) && v in w.peers && k <= w.peers[v].commit <= |w.peers[v].log| && Filled(c, k)
    requires Committed(w, w.peers[v].log, w.peers[v].commit, w.peers[v].term)
    ensures TableUpTo(c, k) == w.peers[v].log[..k]
  {
    GoodSafe(c, w);
    var p := w.peers[v];
    NodeNumbered(w, v);
    assert PeerOk(w, p) && TablesOk(w, c);
    forall i | 0 <= i < k ensures TableUpTo(c, k)[i] == p.log[i] {
      var t := PrefixEntryCommitted(w, p.log, p.commit, p.term, i);
      assert i + 1 in c.appliedGlobal;
      BothCommitted(w, c.appliedGlobal[i + 1], p.log[i]);
    }
  }

  /** Every replica's state machine is what the client commands in the cluster-wide table, up to the index it applied, give
      when they run one after the other from the empty state. */
  lemma StateIsTable(cs: seq<Cluster>, evs: seq<Event>, compacts: seq<bool>, k: nat, v: NodeId)
    requires Run(cs, evs, compacts) && k <= |evs| && v in cs[k].hosts
    ensures var c, h := cs[k], cs[k].hosts[v];
            Filled(c, h.applied) && h.sm == KvsmTheorems.RunState(Kvsm.EMPTY, Commands(TableUpTo(c, h.applied)))
  {
    var c, h := cs[k], cs[k].hosts[v];
    var w := RunGood(cs, evs, compacts, k);
    GoodApplied(c, w, v);
    FilledHolds(cs, evs, compacts, k);
    AppliedBelow(c, w, v);
    assert Filled(c, h.applied) by { assert Filled(c, NodeAt(c, v).commit); }
    TableIsLog(c, w, v, h.applied);
    ReplayIsCommands(w.peers[v].log[..h.applied]);
  }

  lemma AppliedBelow(c: Cluster, w: World, v: NodeId)
    requires Good(c, w) && v in c.hosts
    ensures v in c.cfgs && c.hosts[v].applied <= NodeAt(c, v).commit
  {
    assert HostOk(w, c.voters, c.cfgs[v], c.hosts[v]);
  }

  /** End to end: whatever the clients recorded of the commands in the table, the sequential map accepts it for those that
      took effect, in table order, and the replica's store mirrors that map. */
  lemma ReplicaMirrorsMap(cs: seq<Cluster>, evs: seq<Event>, compacts: seq<bool>, k: nat, v: NodeId, rs: seq<WglLocality.HRecord>)
    requires Run(cs, evs, compacts) && k <= |evs| && v in cs[k].hosts && Filled(cs[k], cs[k].hosts[v].applied)
    requires KvsmHistory.RecordsOf(Kvsm.EMPTY, Commands(TableUpTo(cs[k], cs[k].hosts[v].applied)), rs)
    ensures var accepted := WglLocality.RunMap(KvsmHistory.Effective(Kvsm.EMPTY, Commands(TableUpTo(cs[k], cs[k].hosts[v].applied)), rs));
            accepted.Some? && KvsmHistory.Mirrors(cs[k].hosts[v].sm.kvs, accepted.value)
  {
    StateIsTable(cs, evs, compacts, k, v);
    KvsmHistory.RunRefinesMap(Commands(TableUpTo(cs[k], cs[k].hosts[v].applied)), rs);
  }

  lemma TableAfter(cs: seq<Cluster>, evs: seq<Event>, compacts: seq<bool>, k: nat, i: Index)
    requires Run(cs, evs, compacts) && 0 < k <= |evs| && i in cs[k].appliedGlobal
    ensures Enabled(cs[k - 1], evs[k - 1])
    ensures if i in cs[k - 1].appliedGlobal then cs[k].appliedGlobal[i] == cs[k - 1].appliedGlobal[i]
            else cs[k].appliedGlobal[i] in OutputOf(cs[k - 1], evs[k - 1]).committed
  {
    assert Steps(cs[k - 1], evs[k - 1], compacts[k - 1], cs[k]);
    RecordHas(cs[k - 1].appliedGlobal, OutputOf(cs[k - 1], evs[k - 1]).committed);
  }

  /** Every command in the table is one that a leader accepted from a client. */
  lemma {:induction false} TableWasProposed(cs: seq<Cluster>, evs: seq<Event>, compacts: seq<bool>, k: nat, i: Index)
    requires Run(cs, evs, compacts) && k <= |evs| && i in cs[k].appliedGlobal && !cs[k].appliedGlobal[i].payload.Noop?
    ensures exists j :: 0 <= j < k && WasAccepted(cs, evs, j, cs[k].appliedGlobal[i])
    decreases k
  {
    if k > 0 {
      var e := cs[k].appliedGlobal[i];
      TableAfter(cs, evs, compacts, k, i);
      if i in cs[k - 1].appliedGlobal {
        TableWasProposed(cs, evs, compacts, k - 1, i);
        var j :| 0 <= j < k - 1 && WasAccepted(cs, evs, j, e);
        assert 0 <= j < k && WasAccepted(cs, evs, j, e);
      } else {
        var j := EmittedWasProposed(cs, evs, compacts, k - 1, e);
        assert 0 <= j < k && WasAccepted(cs, evs, j, e);
      }
    }
  }

  // ------------------------------------------------------------- the table of leaders

  ghost predicate LeadsIn(c: Cluster, v: NodeId, t: Term) {
    v in c.hosts && c.hosts[v].raft.Some? && c.hosts[v].raft.value.role == Leader && c.hosts[v].raft.value.hs.term == t
  }

  lemma NoFirstLeader(c: Cluster, v: NodeId, t: Term)
    requires Init(c)
    ensures !LeadsIn(c, v, t)
  {
    if v in c.hosts {
      var rnd: nat :| c.hosts[v] == Host(Some(New(c.cfgs[v], c.voters, BLANK, rnd)), BLANK, Kvsm.EMPTY, 0);
    }
  }

  /** Whoever leads after an event led before it or is entered by it, and no entry is ever removed. */
  lemma LeadsStep(c: Cluster, ev: Event, compact: bool, c2: Cluster, v: NodeId, t: Term)
    requires Steps(c, ev, compact, c2)
    ensures LeadsIn(c2, v, t) ==> LeadsIn(c, v, t) || t in c2.leadersByTerm
    ensures t in c.leadersByTerm ==> t in c2.leadersByTerm
  {
    if v == ev.id && !ev.Crash? {
      var h := if ev.Restart? then Reloaded(c.hosts[v]) else c.hosts[v];
      var n := if ev.Restart? then New(c.cfgs[v], c.voters, h.disk, ev.rnd) else React(h.raft.value, ev);
      SettledLeads(h, n, compact);
    }
  }

  lemma SettledLeads(h: Host, n: Node, compact: bool)
    ensures var m := Settle(h, n, compact).raft; m.Some? && m.value.role == n.role && m.value.hs == n.hs
  {}

  /** The table of leaders misses nobody: a node that leads a term at some moment is in it from then on, alone. */
  lemma {:induction false} LeaderEntered(cs: seq<Cluster>, evs: seq<Event>, compacts: seq<bool>, j: nat, k: nat, v: NodeId, t: Term)
    requires Run(cs, evs, compacts) && j <= k <= |evs| && LeadsIn(cs[j], v, t)
    ensures t in cs[k].leadersByTerm && cs[k].leadersByTerm[t] == v
    decreases k
  {
    NoFirstLeader(cs[0], v, t);
    if k > 0 {
      assert Steps(cs[k - 1], evs[k - 1], compacts[k - 1], cs[k]);
      LeadsStep(cs[k - 1], evs[k - 1], compacts[k - 1], cs[k], v, t);
      if j < k {
        LeaderEntered(cs, evs, compacts, j, k - 1, v, t);
      } else if LeadsIn(cs[k - 1], v, t) {
        LeaderEntered(cs, evs, compacts, k - 1, k - 1, v, t);
      }
      var w := RunGood(cs, evs, compacts, j);
      LeaderTable(cs, evs, compacts, k, j, v);
    }
  }

  // ------------------------------------------------------------- followers commit

  /** Appends on the network are numbered from the index they name, and no node's snapshot is ahead of its commit. */
  lemma AppendsInOrder(c: Cluster, w: World, v: NodeId, m: Message)
    requires Good(c, w) && v in c.hosts && c.hosts[v].raft.Some? && m in c.net && m.body.AppendEntries?
    ensures RaftRules.InSequence(m.body.entries, m.body.prevLogIndex)
    ensures c.hosts[v].raft.value.log.snapIndex <= c.hosts[v].raft.value.commit && c.hosts[v].raft.value.out == NO_OUTPUT
  {
    GoodSafe(c, w);
    assert HostOk(w, c.voters, c.cfgs[v], c.hosts[v]);
    assert MsgOk(w, c.voters, m);
    assert ReignOk(w, m.term);
    RaftFollowing.NumberedLog(w.reigns, w.reigns[m.term].log);
  }

  /** In every run, a delivered append that is not stale moves the follower's commit by the commit rule, and the event emits
      exactly the entries newly committed. */
  lemma DeliveredCommits(cs: seq<Cluster>, evs: seq<Event>, compacts: seq<bool>, i: nat)
    requires Run(cs, evs, compacts) && i < |evs| && evs[i].Deliver? && evs[i].msg.body.AppendEntries? && Enabled(cs[i], evs[i])
    requires cs[i].hosts[evs[i].id].raft.value.hs.term <= evs[i].msg.term
    ensures var f, m := cs[i].hosts[evs[i].id].raft.value, evs[i].msg;
            RaftRules.Emits([], React(f, evs[i]), f.commit,
              if RaftRules.Accepts(f, m) && RaftRules.Reaches(f, m) then
                Max(f.commit, Min(m.body.leaderCommit, m.body.prevLogIndex + |m.body.entries|))
              else f.commit)
  {
    var w := RunGood(cs, evs, compacts, i);
    AppendsInOrder(cs[i], w, evs[i].id, evs[i].msg);
    var g := RaftRules.AppendCommits(cs[i].hosts[evs[i].id].raft.value, evs[i].msg, evs[i].rnd);
  }

  // ------------------------------------------------------------- what an event leaves behind

  /** An event of a running node touches no other host, adds exactly the messages it produced to the network, and without
      compaction leaves the node as the event made it, with its output drained. */
  lemma EventRule(cs: seq<Cluster>, evs: seq<Event>, compacts: seq<bool>, i: nat)
    requires Run(cs, evs, compacts) && i < |evs| && !evs[i].Crash? && !evs[i].Restart? && Enabled(cs[i], evs[i])
    ensures var c, c2, id, n := cs[i], cs[i + 1], evs[i].id, React(cs[i].hosts[evs[i].id].raft.value, evs[i]);
            && c2.hosts.Keys == c.hosts.Keys && (forall v :: v in c.hosts && v != id ==> c2.hosts[v] == c.hosts[v])
            && (forall x :: x in c2.net <==> x in c.net || x in n.out.messages)
            && c2.hosts[id].raft.Some? && c2.hosts[id].applied == n.commit
            && (!compacts[i] ==> c2.hosts[id].raft.value == n.(out := NO_OUTPUT))
  {
    assert Steps(cs[i], evs[i], compacts[i], cs[i + 1]);
    var w := RunGood(cs, evs, compacts, i + 1);
    AppliedIsCommit(cs[i + 1], w, evs[i].id);
    var m := SettledEntries(cs[i].hosts[evs[i].id], React(cs[i].hosts[evs[i].id].raft.value, evs[i]), compacts[i]);
  }

  lemma AppliedIsCommit(c: Cluster, w: World, v: NodeId)
    requires Good(c, w) && v in c.hosts
    ensures c.hosts[v].raft.Some? ==> c.hosts[v].applied == c.hosts[v].raft.value.commit
  {
    assert HostOk(w, c.voters, c.cfgs[v], c.hosts[v]);
  }

  /** Everything applied is in the snapshot, in memory and on disk. */
  predicate Folded(h: Host) {
    && h.raft.Some? && h.raft.value.log.snapIndex == h.applied
    && (h.applied > 0 ==> h.disk.snapshot.Some? && h.disk.snapshot.value.lastIndex == h.applied && h.disk.snapshot.value.data == h.sm)
  }

  /** A host that compacts folds everything it has applied into the snapshot. */
  lemma CompactionRule(cs: seq<Cluster>, evs: seq<Event>, compacts: seq<bool>, i: nat)
    requires Run(cs, evs, compacts) && i < |evs| && !evs[i].Crash? && compacts[i] && Enabled(cs[i], evs[i])
    ensures Folded(cs[i + 1].hosts[evs[i].id])
  {
    assert Steps(cs[i], evs[i], compacts[i], cs[i + 1]);
    var w := RunGood(cs, evs, compacts, i);
    var plain := CompactsAfter(cs[i], evs[i]);
    var w2 := StepGood(cs[i], w, evs[i], false, plain);
    FoldsAll(plain, w2, evs[i].id);
  }

  lemma CompactsAfter(c: Cluster, ev: Event) returns (plain: Cluster)
    requires Enabled(c, ev) && ev.id in c.cfgs && !ev.Crash?
    ensures plain == Next(c, ev, false) && ev.id in plain.hosts && plain.hosts[ev.id].raft.Some?
    ensures Next(c, ev, true).hosts[ev.id] == CompactHost(plain.hosts[ev.id])
  {
    plain := Next(c, ev, false);
  }

  lemma FoldsAll(c: Cluster, w: World, v: NodeId)
    requires Good(c, w) && v in c.hosts && c.hosts[v].raft.Some?
    ensures Folded(CompactHost(c.hosts[v]))
  {
    GoodSafe(c, w);
    var h := c.hosts[v];
    assert HostOk(w, c.voters, c.cfgs[v], h);
    var n := h.raft.value;
    assert PeerOk(w, w.peers[v]);
    RaftRules.CompactRule(n, h.applied, h.sm);
    assert n.log.snapIndex < h.applied ==> n.log.TermOf(h.applied).Some?;
  }
}
