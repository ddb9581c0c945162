/** One simulated node and its host duties (crates/sim/src/cluster.rs:402-466, 827-869).

    `SimNode` drains its node's output in place and in order: disk, state machine, compaction, network.  Each
    method is proved to take the host to the value `RaftHost` prescribes. */
module RaftSim {
  import opened Prelude
  import opened RaftTypes
  import opened RaftLogs
  import opened RaftCore
  import opened RaftHost
  import opened RaftMachine
  import RaftTheorems
  import Kvsm

  /** The table never contradicts what is about to be applied: the simulator's state-machine safety assertion. */
  ghost predicate Consistent(es: seq<Entry>, seen: map<Index, Entry>) {
    && (forall e :: e in es && e.index in seen ==> seen[e.index] == e)
    && (forall e, f :: e in es && f in es && e.index == f.index ==> e == f)
  }

  /** No run trips that assertion, or one of the node's own. */
  lemma AssertionsHold(cs: seq<Cluster>, evs: seq<Event>, compacts: seq<bool>, i: nat)
    requires Run(cs, evs, compacts) && i < |evs| && Enabled(cs[i], evs[i])
    ensures Consistent(RaftTheorems.OutputOf(cs[i], evs[i]).committed, cs[i].appliedGlobal)
    ensures evs[i].Deliver? ==> !StepPanics(cs[i].hosts[evs[i].id].raft.value, evs[i].msg, evs[i].rnd)
  {
    var es := RaftTheorems.OutputOf(cs[i], evs[i]).committed;
    forall e | e in es && e.index in cs[i].appliedGlobal ensures cs[i].appliedGlobal[e.index] == e {
      RaftTheorems.AppliedTable(cs, evs, compacts, i, e);
    }
    forall e, f | e in es && f in es && e.index == f.index ensures e == f {
      RaftTheorems.EmittedTogether(cs, evs, compacts, i, e, f);
    }
    if evs[i].Deliver? { RaftTheorems.NoPanics(cs, evs, compacts, i); }
  }

  lemma {:induction false} DropsAt(entries: seq<Entry>, idx: Index, pos: nat)
    requires pos <= |entries| && (forall i :: 0 <= i < pos ==> entries[i].index < idx)
    requires pos < |entries| ==> entries[pos].index >= idx
    ensures DropFrom(entries, idx) == entries[..pos]
    decreases pos
  {
    if pos > 0 {
      DropsAt(entries[1..], idx, pos - 1);
      assert entries[..pos] == [entries[0]] + entries[1..][..pos - 1];
    }
  }

  class SimNode {
    var raft: RaftNode?
    var disk: Persisted
    var sm: Kvsm.State
    var applied: Index

    /** A node on an empty disk. */
    constructor (cfg: Config, voters: seq<NodeId>, rnd: nat)
      ensures raft != null && fresh(raft) && fresh(raft.log)
      ensures View() == Host(Some(New(cfg, voters, BLANK, rnd)), BLANK, Kvsm.EMPTY, 0)
    {
      raft := new RaftNode(cfg, voters, BLANK, rnd);
      disk, sm, applied := BLANK, Kvsm.EMPTY, 0;
    }

    function View(): Host
      reads this, raft, if raft == null then {} else {raft.log}
    {
      Host(if raft == null then None else Some(raft.View()), disk, sm, applied)
    }

    /** Everything stored at or above `idx` goes, from the first such entry on. */
    static method CutAt(entries: seq<Entry>, idx: Index) returns (r: seq<Entry>)
      ensures r == DropFrom(entries, idx)
    {
      var pos := 0;
      while pos < |entries| && entries[pos].index < idx
        invariant 0 <= pos <= |entries| && forall i :: 0 <= i < pos ==> entries[i].index < idx
      {
        pos := pos + 1;
      }
      DropsAt(entries, idx, pos);
      r := entries[..pos];
    }

    /** Step (1): hard state, snapshot and entries reach the disk. */
    method PersistOutput(out: Output)
      modifies this`disk
      ensures disk == Persist(old(disk), out)
    {
      var hs := if out.hardState.Some? then out.hardState.value else disk.hardState;
      var snap := if out.snapshot.Some? then out.snapshot else disk.snapshot;
      var entries := if out.snapshot.Some? then [] else disk.entries;
      ghost var kept := entries;
      var i := 0;
      while i < |out.append|
        invariant 0 <= i <= |out.append|
        invariant StoreEntries(entries, out.append[i..]) == StoreEntries(kept, out.append)
      {
        var cut := CutAt(entries, out.append[i].index);
        assert out.append[i..][0] == out.append[i] && out.append[i..][1..] == out.append[i + 1..];
        entries := cut + [out.append[i]];
        i := i + 1;
      }
      assert out.append[i..] == [];
      disk := Persisted(hs, entries, snap);
    }

    /** Step (2): the committed entries are applied in order and recorded in the table all nodes share.  The
        precondition is the table's own assertion; no run trips it. */
    method ApplyCommitted(es: seq<Entry>, seen: map<Index, Entry>) returns (all: map<Index, Entry>)
      requires Consistent(es, seen)
      modifies this`sm, this`applied
      ensures sm == ApplyAll(old(sm), es) && applied == if es == [] then old(applied) else es[|es| - 1].index
      ensures all == Record(seen, es)
    {
      all := seen;
      var i := 0;
      while i < |es|
        invariant 0 <= i <= |es|
        invariant forall e :: e in es && e.index in all ==> all[e.index] == e
        invariant sm == ApplyAll(old(sm), es[..i]) && applied == if i == 0 then old(applied) else es[i - 1].index
        invariant Record(all, es[i..]) == Record(seen, es)
      {
        var e := es[i];
        assert es[i..][0] == e && es[i..][1..] == es[i + 1..];
        assert es[..i + 1][..i] == es[..i];
        if e.index in all { assert all[e.index] == e; } else { all := all[e.index := e]; }
        if e.payload.Normal? { sm := Kvsm.Apply(sm, e.payload.cmd).0; }
        applied := e.index;
        i := i + 1;
      }
      assert es[..i] == es && es[i..] == [];
    }

    static method RetainAbove(entries: seq<Entry>, idx: Index) returns (r: seq<Entry>)
      ensures r == Above(entries, idx)
    {
      r := [];
      var i := |entries|;
      while i > 0
        invariant 0 <= i <= |entries| && r == Above(entries[i..], idx)
      {
        i := i - 1;
        assert entries[i..][1..] == entries[i + 1..];
        if entries[i].index > idx { r := [entries[i]] + r; }
      }
      assert entries[0..] == entries;
    }

    /** Folds the applied prefix into a snapshot, in the node and on disk. */
    method CompactLog()
      requires raft != null
      modifies this`disk, raft, raft.log
      ensures raft == old(raft) && View() == CompactHost(old(View()))
    {
      var snap := raft.CompactAt(applied, sm);
      if snap.Some? {
        var above := RetainAbove(disk.entries, snap.value.lastIndex);
        disk := disk.(snapshot := snap, entries := above);
      }
    }

    /** Drains the node's output; the messages join the network last. */
    method ProcessOutput(compact: bool, net: set<Message>, seen: map<Index, Entry>) returns (sent: set<Message>, all: map<Index, Entry>)
      requires raft != null && Consistent(raft.output.committed, seen)
      modifies this, raft, raft.log
      ensures raft == old(raft) && View() == Settle(old(View()), old(raft.View()), compact)
      ensures sent == net + (set m | m in old(raft.output).messages) && all == Record(seen, old(raft.output).committed)
    {
      var out := raft.TakeOutput();
      PersistOutput(out);
      if out.snapshot.Some? { sm, applied := out.snapshot.value.data, out.snapshot.value.lastIndex; }
      all := ApplyCommitted(out.committed, seen);
      assert View() == Drain(old(View()), old(raft.View()));
      if compact { CompactLog(); }
      sent := net + set m | m in out.messages;
    }

    /** A message that reaches a node that is up. */
    method OnMessage(m: Message, rnd: nat, compact: bool, net: set<Message>, seen: map<Index, Entry>) returns (sent: set<Message>, all: map<Index, Entry>)
      requires raft != null && !StepPanics(raft.View(), m, rnd)
      requires Consistent(RaftCore.Step(raft.View(), m, rnd).out.committed, seen)
      modifies this, raft, raft.log
      ensures var n := RaftCore.Step(old(raft.View()), m, rnd);
              && raft == old(raft) && View() == Settle(old(View()), n, compact)
              && sent == net + (set x | x in n.out.messages) && all == Record(seen, n.out.committed)
    {
      raft.Step(m, rnd);
      sent, all := ProcessOutput(compact, net, seen);
    }

    /** A tick of a node that is up. */
    method OnTick(rnd: nat, compact: bool, net: set<Message>, seen: map<Index, Entry>) returns (sent: set<Message>, all: map<Index, Entry>)
      requires raft != null && Consistent(Tick(raft.View(), rnd).out.committed, seen)
      modifies this, raft, raft.log
      ensures var n := Tick(old(raft.View()), rnd);
              && raft == old(raft) && View() == Settle(old(View()), n, compact)
              && sent == net + (set x | x in n.out.messages) && all == Record(seen, n.out.committed)
    {
      raft.TickOnce(rnd);
      sent, all := ProcessOutput(compact, net, seen);
    }

    /** A client's write; refused unless this node leads. */
    method OnWrite(cmd: Kvsm.Command, rnd: nat, compact: bool, net: set<Message>, seen: map<Index, Entry>)
      returns (sent: set<Message>, all: map<Index, Entry>, r: Answer<Index>)
      requires raft != null && Consistent(Propose(raft.View(), cmd, rnd).0.out.committed, seen)
      modifies this, raft, raft.log
      ensures var (n, answer) := Propose(old(raft.View()), cmd, rnd);
              && raft == old(raft) && View() == Settle(old(View()), n, compact) && r == answer
              && sent == net + (set x | x in n.out.messages) && all == Record(seen, n.out.committed)
    {
      r := raft.ProposeCommand(cmd, rnd);
      sent, all := ProcessOutput(compact, net, seen);
    }

    /** A client's linearizable read; refused unless this node leads and has committed in its term. */
    method OnRead(id: nat, compact: bool, net: set<Message>, seen: map<Index, Entry>)
      returns (sent: set<Message>, all: map<Index, Entry>, r: Answer<()>)
      requires raft != null && Consistent(ReadIndex(raft.View(), id).0.out.committed, seen)
      modifies this, raft, raft.log
      ensures var (n, answer) := ReadIndex(old(raft.View()), id);
              && raft == old(raft) && View() == Settle(old(View()), n, compact) && r == answer
              && sent == net + (set x | x in n.out.messages) && all == Record(seen, n.out.committed)
    {
      r := raft.RequestRead(id);
      sent, all := ProcessOutput(compact, net, seen);
    }

    /** Everything but the disk is lost. */
    method Crash()
      modifies this
      ensures View() == Host(None, old(disk), Kvsm.EMPTY, 0)
    {
      raft, sm, applied := null, Kvsm.EMPTY, 0;
    }

    /** Starts again from the disk; the state machine comes back from the stored snapshot. */
    method Restart(cfg: Config, voters: seq<NodeId>, rnd: nat)
      requires raft == null
      modifies this
      ensures raft != null && fresh(raft) && fresh(raft.log)
      ensures View() == Reloaded(old(View())).(raft := Some(New(cfg, voters, old(disk), rnd)))
    {
      raft := new RaftNode(cfg, voters, disk, rnd);
      if disk.snapshot.Some? { sm, applied := disk.snapshot.value.data, disk.snapshot.value.lastIndex; }
    }
  }
}
