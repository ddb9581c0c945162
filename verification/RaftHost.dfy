/** The host of a node and the cluster around it (crates/sim/src/cluster.rs).

    An event runs one entry point of the node and then drains its output in the order of
    `process_output`: persist, apply, compact, send.  The network is the set of all messages
    ever sent, so a message may be delivered never, once, late or repeatedly. */
module RaftHost {
  import opened Prelude
  import opened RaftTypes
  import opened RaftLogs
  import opened RaftCore
  import Kvsm

  // ------------------------------------------------------------- the disk

  function DropFrom(entries: seq<Entry>, idx: Index): seq<Entry> {
    if entries == [] || entries[0].index >= idx then []
    else [entries[0]] + DropFrom(entries[1..], idx)
  }

  /** Each appended entry replaces everything stored at or above its index. */
  function StoreEntries(entries: seq<Entry>, append: seq<Entry>): seq<Entry>
    decreases |append|
  {
    if append == [] then entries
    else StoreEntries(DropFrom(entries, append[0].index) + [append[0]], append[1..])
  }

  function Persist(d: Persisted, out: Output): Persisted {
    var hs := if out.hardState.Some? then out.hardState.value else d.hardState;
    var snap := if out.snapshot.Some? then out.snapshot else d.snapshot;
    var kept := if out.snapshot.Some? then [] else d.entries;
    Persisted(hs, StoreEntries(kept, out.append), snap)
  }

  function Above(entries: seq<Entry>, idx: Index): seq<Entry> {
    if entries == [] then []
    else (if entries[0].index > idx then [entries[0]] else []) + Above(entries[1..], idx)
  }

  // ------------------------------------------------------------- the state machine

  function ApplyEntry(s: Kvsm.State, e: Entry): Kvsm.State {
    if e.payload.Normal? then Kvsm.Apply(s, e.payload.cmd).0 else s
  }

  function ApplyAll(s: Kvsm.State, es: seq<Entry>): Kvsm.State {
    if es == [] then s else ApplyEntry(ApplyAll(s, es[..|es| - 1]), es[|es| - 1])
  }

  /** The state machine of a replica that applied the log from its first entry. */
  function Replay(log: seq<Entry>): Kvsm.State { ApplyAll(Kvsm.EMPTY, log) }

  // ------------------------------------------------------------- hosts

  datatype Host = Host(raft: Option<Node>, disk: Persisted, sm: Kvsm.State, applied: Index)

  /** Steps (1) and (2) of `process_output` for a node that produced `n.out`. */
  function Drain(h: Host, n: Node): Host {
    var out := n.out;
    var sm := if out.snapshot.Some? then out.snapshot.value.data else h.sm;
    var from := if out.snapshot.Some? then out.snapshot.value.lastIndex else h.applied;
    Host(Some(n.(out := NO_OUTPUT)), Persist(h.disk, out), ApplyAll(sm, out.committed),
         if out.committed == [] then from else out.committed[|out.committed| - 1].index)
  }

  /** Log compaction, when the host decides to fold the applied prefix into a snapshot. */
  function CompactHost(h: Host): Host
    requires h.raft.Some?
  {
    var (n, snap) := Compact(h.raft.value, h.applied, h.sm);
    if snap.None? then h
    else h.(raft := Some(n), disk := h.disk.(snapshot := snap, entries := Above(h.disk.entries, snap.value.lastIndex)))
  }

  /** A host that starts again: the state machine comes back from the snapshot on disk. */
  function Reloaded(h: Host): Host {
    if h.disk.snapshot.None? then h
    else h.(sm := h.disk.snapshot.value.data, applied := h.disk.snapshot.value.lastIndex)
  }

  function Settle(h: Host, n: Node, compact: bool): Host {
    var h2 := Drain(h, n);
    if compact then CompactHost(h2) else h2
  }

  // ------------------------------------------------------------- the cluster

  datatype Cluster = Cluster(
    voters: seq<NodeId>,
    cfgs: map<NodeId, Config>,
    hosts: map<NodeId, Host>,
    net: set<Message>,
    leadersByTerm: map<Term, NodeId>,
    appliedGlobal: map<Index, Entry>)

  datatype Event =
    | Ticks(id: NodeId, rnd: nat)
    | Deliver(id: NodeId, msg: Message, rnd: nat)
    | ClientWrite(id: NodeId, cmd: Kvsm.Command, rnd: nat)
    | ClientRead(id: NodeId, readId: nat)
    | Crash(id: NodeId)
    | Restart(id: NodeId, rnd: nat)

  const BLANK: Persisted := Persisted(HardState(0, None), [], None)

  ghost predicate WellConfigured(voters: seq<NodeId>, cfgs: map<NodeId, Config>) {
    && voters != []
    && (forall i, j :: 0 <= i < j < |voters| ==> voters[i] != voters[j])
    && (forall v :: v in voters <==> v in cfgs)
    && (forall v :: v in cfgs ==> cfgs[v].id == v)
  }

  ghost predicate Init(c: Cluster) {
    && WellConfigured(c.voters, c.cfgs)
    && c.hosts.Keys == c.cfgs.Keys
    && (forall v :: v in c.hosts ==> exists rnd: nat ::
          c.hosts[v] == Host(Some(New(c.cfgs[v], c.voters, BLANK, rnd)), BLANK, Kvsm.EMPTY, 0))
    && c.net == {} && c.leadersByTerm == map[] && c.appliedGlobal == map[]
  }

  /** The node's reaction to an event addressed to it while it is up. */
  function React(n: Node, ev: Event): Node {
    match ev
    case Ticks(_, rnd) => Tick(n, rnd)
    case Deliver(_, m, rnd) => RaftCore.Step(n, m, rnd)
    case ClientWrite(_, cmd, rnd) => Propose(n, cmd, rnd).0
    case ClientRead(_, rid) => ReadIndex(n, rid).0
    case _ => n
  }

  predicate Enabled(c: Cluster, ev: Event) {
    && ev.id in c.hosts
    && (c.hosts[ev.id].raft.None? <==> ev.Restart?)
    && (ev.Deliver? ==> ev.msg in c.net && ev.msg.to == ev.id)
  }

  /** `applied_global`: the entry first applied at each index by any node. */
  function Record(m: map<Index, Entry>, es: seq<Entry>): map<Index, Entry>
    decreases |es|
  {
    if es == [] then m
    else Record(if es[0].index in m then m else m[es[0].index := es[0]], es[1..])
  }

  function Recorded(m: map<Term, NodeId>, n: Node): map<Term, NodeId> {
    if n.role == Leader && n.hs.term !in m then m[n.hs.term := n.cfg.id] else m
  }

  /** `h` is the host that ran the event and `n` its node, with the output still to drain. */
  function Finish(c: Cluster, id: NodeId, h: Host, n: Node, compact: bool): Cluster {
    c.(hosts := c.hosts[id := Settle(h, n, compact)],
       net := c.net + (set m | m in n.out.messages),
       leadersByTerm := Recorded(c.leadersByTerm, n),
       appliedGlobal := Record(c.appliedGlobal, n.out.committed))
  }

  function Next(c: Cluster, ev: Event, compact: bool): Cluster
    requires ev.id in c.hosts && ev.id in c.cfgs && (c.hosts[ev.id].raft.None? <==> ev.Restart?)
  {
    var h := c.hosts[ev.id];
    match ev
    case Crash(id) =>
      c.(hosts := c.hosts[id := Host(None, h.disk, Kvsm.EMPTY, 0)])
    case Restart(id, rnd) =>
      Finish(c, id, Reloaded(h), New(c.cfgs[id], c.voters, h.disk, rnd), compact)
    case _ => Finish(c, ev.id, h, React(h.raft.value, ev), compact)
  }

  ghost predicate Steps(c: Cluster, ev: Event, compact: bool, c2: Cluster) {
    Enabled(c, ev) && ev.id in c.cfgs && c2 == Next(c, ev, compact)
  }

  /** A finite run: `cs[i]` becomes `cs[i + 1]` by event `evs[i]`. */
  ghost predicate Run(cs: seq<Cluster>, evs: seq<Event>, compacts: seq<bool>) {
    && |cs| == |evs| + 1 && |compacts| == |evs|
    && Init(cs[0])
    && forall i :: 0 <= i < |evs| ==> Steps(cs[i], evs[i], compacts[i], cs[i + 1])
  }
}
