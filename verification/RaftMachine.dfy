/** The imperative node (crates/raft/src/node.rs, crates/raft/src/log.rs).

    `Log` and `RaftNode` update their fields in place, as the source does; each method is proved to take the
    node from its old value to the one the functions of `RaftCore` prescribe.  `View` is that value. */
module RaftMachine {
  import opened Prelude
  import opened RaftTypes
  import opened RaftLogs
  import opened RaftCore
  import RaftRules
  import Kvsm

  /** The log above its snapshot base. */
  class Log {
    var snapIndex: Index
    var snapTerm: Term
    var entries: seq<Entry>

    constructor (snapIndex: Index, snapTerm: Term, entries: seq<Entry>)
      ensures View() == RaftLog(snapIndex, snapTerm, entries)
    {
      this.snapIndex, this.snapTerm, this.entries := snapIndex, snapTerm, entries;
    }

    function View(): RaftLog
      reads this
    {
      RaftLog(snapIndex, snapTerm, entries)
    }

    /** Appends one entry, which must directly follow the last. */
    method Push(e: Entry)
      modifies this`entries
      ensures View() == old(View()).Push(e)
      ensures View().Get(old(View()).LastIndex() + 1) == Some(e)
      ensures forall k: Index :: k <= old(View()).LastIndex() ==> View().Get(k) == old(View()).Get(k)
    {
      entries := entries + [e];
    }

    method PushAll(es: seq<Entry>)
      modifies this`entries
      ensures View() == old(View()).(entries := old(entries) + es)
    {
      for j := 0 to |es|
        invariant entries == old(entries) + es[..j]
      {
        Push(es[j]);
      }
      assert es[..|es|] == es;
    }

    /** Drops every entry at or above `idx`. */
    method TruncateFrom(idx: Index)
      requires idx > snapIndex
      modifies this`entries
      ensures View() == old(View()).TruncateFrom(idx)
      ensures forall k: Index :: View().Get(k) == if k < idx then old(View()).Get(k) else None
    {
      var keep := idx - snapIndex - 1;
      if keep < |entries| { entries := entries[..keep]; }
    }

    /** Drops what a snapshot at `idx` covers. */
    method Compact(idx: Index, term: Term)
      modifies this
      ensures View() == old(View()).Compact(idx, term)
      ensures forall k: Index :: k > idx ==> View().Get(k) == old(View()).Get(k)
    {
      if idx <= snapIndex { return; }
      var dropped := Min(idx - snapIndex, |entries|);
      entries := entries[dropped..];
      snapIndex, snapTerm := idx, term;
    }

    method ResetToSnapshot(idx: Index, term: Term)
      modifies this
      ensures View() == old(View()).ResetToSnapshot(idx, term)
      ensures View().LastIndex() == idx && View().TermOf(idx) == Some(term)
    {
      snapIndex, snapTerm, entries := idx, term, [];
    }
  }

  class RaftNode {
    const cfg: Config
    const log: Log
    var hs: HardState
    var role: Role
    var leaderId: Option<NodeId>
    var commit: Index
    var snapshot: Option<Snapshot>
    var votersBase: seq<NodeId>
    var electionElapsed: nat
    var timeout: nat
    var heartbeatElapsed: nat
    var ticks: nat
    var votes: map<NodeId, bool>
    var prs: map<NodeId, Progress>
    var readCtx: nat
    var pendingReads: seq<PendingRead>
    var output: Output

    function View(): Node
      reads this, log
    {
      Node(cfg, log.View(), hs, role, leaderId, commit, snapshot, votersBase, electionElapsed, timeout,
           heartbeatElapsed, ticks, votes, prs, readCtx, pendingReads, output)
    }

    constructor (cfg: Config, initialVoters: seq<NodeId>, persisted: Persisted, rnd: nat)
      ensures View() == New(cfg, initialVoters, persisted, rnd) && fresh(log)
    {
      var snapIndex, snapTerm, base := 0, 0, initialVoters;
      if persisted.snapshot.Some? {
        var s := persisted.snapshot.value;
        snapIndex, snapTerm, base := s.lastIndex, s.lastTerm, s.voters;
      }
      this.cfg := cfg;
      this.log := new Log(snapIndex, snapTerm, persisted.entries);
      hs, role, leaderId, commit := persisted.hardState, Follower, None, snapIndex;
      snapshot, votersBase := persisted.snapshot, base;
      electionElapsed, timeout, heartbeatElapsed, ticks := 0, rnd, 0, 0;
      votes, prs, readCtx, pendingReads, output := map[], map[], 0, [], NO_OUTPUT;
    }

    method TakeOutput() returns (out: Output)
      modifies this`output
      ensures out == old(View()).out && View() == old(View()).(out := NO_OUTPUT)
    {
      out := output;
      output := NO_OUTPUT;
    }

    // ------------------------------------------------------------- voters

    /** Walks the log once, applying each configuration change up to `idx`. */
    method VotersUpTo(idx: Index) returns (v: seq<NodeId>)
      ensures v == VotersAt(votersBase, log.entries, idx)
    {
      v := votersBase;
      var i := 0;
      while i < |log.entries| && log.entries[i].index <= idx
        invariant 0 <= i <= |log.entries|
        invariant VotersAt(v, log.entries[i..], idx) == VotersAt(votersBase, log.entries, idx)
      {
        var e := log.entries[i];
        ghost var was := v;
        match e.payload {
          case Conf(AddNode(id)) => if id !in v { v := v + [id]; }
          case Conf(RemoveNode(id)) => v := Retain(v, id);
          case _ =>
        }
        assert v == ApplyConf(was, e.payload);
        assert log.entries[i..][0] == e && log.entries[i..][1..] == log.entries[i + 1..];
        i := i + 1;
      }
    }

    static method Retain(v: seq<NodeId>, id: NodeId) returns (r: seq<NodeId>)
      ensures r == Without(v, id) && id !in r
    {
      r := [];
      var i := |v|;
      while i > 0
        invariant 0 <= i <= |v|
        invariant r == Without(v[i..], id) && id !in r
      {
        i := i - 1;
        assert v[i..][1..] == v[i + 1..];
        if v[i] != id { r := [v[i]] + r; }
      }
      assert v[0..] == v;
    }

    method VotersNow() returns (v: seq<NodeId>)
      ensures v == Voters(View())
    {
      v := VotersUpTo(log.View().LastIndex());
    }

    method Quorum() returns (q: nat)
      ensures q == QuorumSize(View())
    {
      var v := VotersNow();
      q := |v| / 2 + 1;
    }

    method CountGranted() returns (n: nat)
      ensures n == |Granted(View())|
    {
      var voters := VotersNow();
      var granted := set p | p in votes && votes[p] && p in voters;
      assert granted == Granted(View());
      n := |granted|;
    }

    // ------------------------------------------------------------- output and hard state

    method Emit(to: NodeId, term: Term, body: Body)
      modifies this`output
      ensures View() == Send(old(View()), to, term, body)
    {
      output := output.(messages := output.messages + [Message(cfg.id, to, term, body)]);
    }

    method EmitToOthers(term: Term, body: Body)
      modifies this`output
      ensures View() == SendEach(old(View()), Voters(old(View())), term, body)
    {
      var peers := VotersNow();
      ghost var start := View();
      var i := 0;
      while i < |peers|
        invariant 0 <= i <= |peers|
        invariant SendEach(View(), peers[i..], term, body) == SendEach(start, peers, term, body)
      {
        ghost var n := View();
        if peers[i] != cfg.id { Emit(peers[i], term, body); }
        assert peers[i..][0] == peers[i] && peers[i..][1..] == peers[i + 1..];
        assert SendEach(View(), peers[i + 1..], term, body) == SendEach(n, peers[i..], term, body);
        i := i + 1;
      }
    }

    method ChangeTerm(t: Term)
      modifies this`hs, this`output
      ensures View() == SetTerm(old(View()), t)
    {
      if hs.term != t {
        hs := hs.(term := t);
        output := output.(hardState := Some(hs));
      }
    }

    method ChangeVote(v: Option<NodeId>)
      modifies this`hs, this`output
      ensures View() == SetVote(old(View()), v)
    {
      if hs.votedFor != v {
        hs := hs.(votedFor := v);
        output := output.(hardState := Some(hs));
      }
    }

    method ResetElectionTimer(rnd: nat)
      modifies this`timeout, this`electionElapsed
      ensures View() == ResetTimer(old(View()), rnd)
    {
      timeout, electionElapsed := rnd, 0;
    }

    method StepDown(term: Term, leader: Option<NodeId>, rnd: nat)
      modifies this
      ensures View() == BecomeFollower(old(View()), term, leader, rnd)
    {
      if term > hs.term {
        ChangeTerm(term);
        ChangeVote(None);
      }
      role, leaderId, prs, pendingReads := Follower, leader, map[], [];
      ResetElectionTimer(rnd);
    }

    // ------------------------------------------------------------- replication

    /** Starts tracking every other voter that is not tracked yet. */
    static method TrackAll(was: map<NodeId, Progress>, voters: seq<NodeId>, self: NodeId, next: Index) returns (prs: map<NodeId, Progress>)
      ensures forall p :: p in prs <==> p in was || (p in voters && p != self)
      ensures forall p :: p in prs ==> prs[p] == if p in was then was[p] else NewProgress(next)
    {
      prs := was;
      var i := 0;
      while i < |voters|
        invariant 0 <= i <= |voters|
        invariant forall p :: p in prs <==> p in was || (p in voters[..i] && p != self)
        invariant forall p :: p in prs ==> prs[p] == if p in was then was[p] else NewProgress(next)
      {
        if voters[i] != self && voters[i] !in prs { prs := prs[voters[i] := NewProgress(next)]; }
        assert voters[..i + 1] == voters[..i] + [voters[i]];
        i := i + 1;
      }
    }

    method SyncProgressWithVoters()
      modifies this`prs
      ensures View() == SyncProgress(old(View()))
    {
      if role != Leader { return; }
      var voters := VotersNow();
      var tracked := TrackAll(prs, voters, cfg.id, log.View().LastIndex() + 1);
      prs := map p | p in tracked && p in voters :: tracked[p];
      assert prs == SyncProgress(old(View())).prs;
    }

    /** Sends the peer its next message: an append, a heartbeat, the snapshot, or nothing. */
    method SendAppendTo(peer: NodeId)
      modifies this`prs, this`output
      ensures View() == SendAppend(old(View()), peer)
    {
      if peer !in prs { return; }
      var pr := prs[peer];
      if pr.pendingSnapshot {
        if Max(ticks - pr.snapshotSentTick, 0) < cfg.electionTickMin { return; }
        pr := pr.(pendingSnapshot := false);
      }
      if pr.next <= log.snapIndex {
        if snapshot.Some? {
          prs := prs[peer := pr.(pendingSnapshot := true, snapshotSentTick := ticks)];
          Emit(peer, hs.term, InstallSnapshot(snapshot.value));
        } else {
          prs := prs[peer := pr];
        }
        return;
      }
      var prev := pr.next - 1;
      var prevTerm := log.View().TermOf(prev);
      if prevTerm.None? {
        prs := prs[peer := pr];
        return;
      }
      var entries := log.View().Slice(pr.next, cfg.maxBatch);
      if entries != [] && pr.inflight >= cfg.maxInflight {
        entries := [];
        pr := pr.(inflight := Max(pr.inflight - 1, 0));
      }
      if entries != [] { pr := pr.(next := pr.next + |entries|, inflight := pr.inflight + 1); }
      prs := prs[peer := pr];
      Emit(peer, hs.term, AppendEntries(prev, prevTerm.value, entries, commit, readCtx));
    }

    method BroadcastAppend()
      modifies this`prs, this`output
      ensures View() == Broadcast(old(View()))
    {
      SyncProgressWithVoters();
      ghost var start := View();
      var peers, i := Ascending(prs.Keys), 0;
      while i < |peers|
        invariant 0 <= i <= |peers|
        invariant SendAppends(View(), peers[i..]) == SendAppends(start, peers)
      {
        ghost var n := View();
        SendAppendTo(peers[i]);
        assert peers[i..][0] == peers[i] && peers[i..][1..] == peers[i + 1..];
        assert SendAppends(View(), peers[i + 1..]) == SendAppends(n, peers[i..]);
        i := i + 1;
      }
      assert peers[i..] == [];
    }

    // ------------------------------------------------------------- commit

    /** Hands every entry up to `c` to the host; a leader that sees its own removal steps down. */
    method AdvanceCommitTo(c: Index, rnd: nat)
      modifies this
      ensures View() == AdvanceCommit(old(View()), c, rnd)
    {
      ghost var start := View();
      var done, steppedDown := commit, false;
      commit := c;
      var idx := done;
      while idx < c
        invariant idx <= Max(done, c) && done <= idx
        invariant View() == start.(commit := c, out := start.out.(committed := start.out.committed + Between(start.log, done, idx)))
        invariant steppedDown == (role == Leader && RemovesSelf(start, Between(start.log, done, idx)))
      {
        idx := idx + 1;
        var e := log.View().Get(idx);
        if e.Some? {
          output := output.(committed := output.committed + [e.value]);
          if e.value.payload == Conf(RemoveNode(cfg.id)) && role == Leader { steppedDown := true; }
        }
      }
      assert Between(start.log, done, idx) == Between(start.log, done, c);
      if steppedDown { StepDown(hs.term, None, rnd); }
    }

    /** The quorum-match rule: the highest index a majority holds, if it is of the leader's own term. */
    method MaybeAdvanceCommit(rnd: nat)
      modifies this
      ensures View() == MaybeAdvance(old(View()), rnd)
    {
      if role != Leader { return; }
      var voters := VotersNow();
      var matches := seq(|voters|, i requires 0 <= i < |voters| reads this, log => MatchOf(View(), voters[i]));
      assert matches == Matches(View(), voters);
      matches := SortDesc(matches);
      var q := |voters| / 2 + 1;
      if |matches| < q { return; }
      var candidate := matches[q - 1];
      if candidate > commit && log.View().TermOf(candidate) == Some(hs.term) { AdvanceCommitTo(candidate, rnd); }
    }

    method AppendLocally(payload: Payload, rnd: nat) returns (idx: Index)
      modifies this, log
      ensures View() == AppendLocal(old(View()), payload, rnd) && idx == old(View()).log.LastIndex() + 1
    {
      idx := log.View().LastIndex() + 1;
      var e := Entry(hs.term, idx, payload);
      log.Push(e);
      output := output.(append := output.append + [e]);
      assert View() == Pushed(old(View()), payload);
      MaybeAdvanceCommit(rnd);
      BroadcastAppend();
    }

    // ------------------------------------------------------------- roles

    method FreshProgress() returns (tracked: map<NodeId, Progress>)
      ensures tracked == AsLeader(View()).prs
    {
      var voters := VotersNow();
      tracked := TrackAll(map[], voters, cfg.id, log.View().LastIndex() + 1);
    }

    /** Fresh progress for every other voter; the read rounds start over. */
    method PrepareLead()
      modifies this
      ensures View() == AsLeader(old(View()))
    {
      var tracked := FreshProgress();
      role, leaderId, heartbeatElapsed, pendingReads, readCtx, prs := Leader, Some(cfg.id), 0, [], 0, tracked;
    }

    method TakeLead(rnd: nat)
      modifies this, log
      ensures View() == BecomeLeader(old(View()), rnd)
    {
      PrepareLead();
      var _ := AppendLocally(Noop, rnd);
      BroadcastAppend();
    }

    method VoteForSelf()
      modifies this`hs, this`output
      ensures View() == SetVote(SetTerm(old(View()), old(hs.term) + 1), Some(cfg.id))
    {
      ChangeTerm(hs.term + 1);
      ChangeVote(Some(cfg.id));
    }

    method PrepareCampaign()
      modifies this
      ensures View() == AsCandidate(old(View()))
    {
      VoteForSelf();
      role, leaderId, votes := Candidate, None, map[cfg.id := true];
    }

    method StartCampaign(rnd: nat)
      modifies this, log
      ensures View() == Campaign(old(View()), rnd)
    {
      PrepareCampaign();
      var granted := CountGranted();
      var q := Quorum();
      if granted >= q { TakeLead(rnd); }
      else { EmitToOthers(hs.term, RequestVote(log.View().LastIndex(), log.View().LastTerm())); }
    }

    method StartPreCampaign(rnd: nat)
      modifies this, log
      ensures View() == CampaignPre(old(View()), rnd)
    {
      role, votes := PreCandidate, map[cfg.id := true];
      assert View() == AsPreCandidate(old(View()));
      var granted := CountGranted();
      var q := Quorum();
      if granted >= q { StartCampaign(rnd); }
      else { EmitToOthers(hs.term + 1, PreVote(log.View().LastIndex(), log.View().LastTerm())); }
    }

    method TickAsLeader()
      modifies this
      ensures View() == TickLeader(old(View()))
    {
      heartbeatElapsed := heartbeatElapsed + 1;
      if heartbeatElapsed >= cfg.heartbeatTick {
        heartbeatElapsed := 0;
        BroadcastAppend();
      }
    }

    method TickTowardsElection(rnd: nat)
      modifies this, log
      ensures View() == TickOther(old(View()), rnd)
    {
      electionElapsed := electionElapsed + 1;
      if electionElapsed >= timeout {
        ResetElectionTimer(rnd);
        var voters := VotersNow();
        if cfg.id in voters {
          if cfg.preVote { StartPreCampaign(rnd); } else { StartCampaign(rnd); }
        }
      }
    }

    method TickOnce(rnd: nat)
      modifies this, log
      ensures View() == Tick(old(View()), rnd)
    {
      ticks := ticks + 1;
      if role == Leader {
        TickIsLeader(old(View()), View(), rnd);
        TickAsLeader();
      } else {
        TickIsOther(old(View()), View(), rnd);
        TickTowardsElection(rnd);
      }
    }

    // ------------------------------------------------------------- requests from the host

    /** The command becomes the last entry of a leader's log, under the index answered; any other node refuses. */
    method ProposeCommand(cmd: Kvsm.Command, rnd: nat) returns (r: Answer<Index>)
      modifies this, log
      ensures (View(), r) == Propose(old(View()), cmd, rnd)
      ensures old(role) == Leader ==> r == Ok(old(log.View().LastIndex()) + 1) && RaftRules.Appended(old(View()), View(), Normal(cmd))
      ensures old(role) != Leader ==> r == Refused(NotLeader(old(leaderId))) && View() == old(View())
    {
      RaftRules.ProposeRule(View(), cmd, rnd);
      if role != Leader { return Refused(NotLeader(leaderId)); }
      var idx := AppendLocally(Normal(cmd), rnd);
      r := Ok(idx);
    }

    /** Splits the reads by round, each part in order. */
    static method SplitReads(pending: seq<PendingRead>, ctx: nat) returns (released: seq<ReadState>, kept: seq<PendingRead>)
      ensures released == ReadyReads(pending, ctx) && kept == WaitingReads(pending, ctx)
    {
      var i := |pending|;
      released, kept := [], [];
      while i > 0
        invariant 0 <= i <= |pending|
        invariant released == ReadyReads(pending[i..], ctx) && kept == WaitingReads(pending[i..], ctx)
      {
        i := i - 1;
        var p := pending[i];
        assert pending[i..][0] == p && pending[i..][1..] == pending[i + 1..];
        if p.ctx <= ctx { released := [ReadState(p.id, p.index)] + released; } else { kept := [p] + kept; }
      }
      assert pending[0..] == pending;
    }

    method ReleaseReadsUpTo(ctx: nat)
      modifies this`pendingReads, this`output
      ensures View() == ReleaseReads(old(View()), ctx)
    {
      var released, kept := SplitReads(pendingReads, ctx);
      pendingReads := kept;
      output := output.(readStates := output.readStates + released);
    }

    method RequestRead(id: nat) returns (r: Answer<()>)
      modifies this
      ensures (View(), r) == ReadIndex(old(View()), id)
    {
      if role != Leader { return Refused(NotLeader(leaderId)); }
      if log.View().TermOf(commit) != Some(hs.term) { return Refused(NotReady); }
      readCtx := readCtx + 1;
      pendingReads := pendingReads + [PendingRead(readCtx, id, commit)];
      var q := Quorum();
      if q == 1 { ReleaseReadsUpTo(readCtx); } else { BroadcastAppend(); }
      r := Ok(());
    }

    method CountReadAcks()
      modifies this`pendingReads, this`output
      ensures View() == ProcessReadAcks(old(View()))
    {
      if pendingReads == [] { return; }
      var voters := VotersNow();
      var acks := seq(|voters|, i requires 0 <= i < |voters| reads this, log => ReadAckOf(View(), voters[i]));
      assert acks == ReadAcks(View(), voters);
      acks := SortDesc(acks);
      var q := |voters| / 2 + 1;
      if |acks| >= q && acks[q - 1] > 0 { ReleaseReadsUpTo(acks[q - 1]); }
    }

    /** Folds the log up to `applied` into a snapshot, configuration changes included. */
    method CompactAt(applied: Index, data: Kvsm.State) returns (snap: Option<Snapshot>)
      modifies this, log
      ensures (View(), snap) == RaftCore.Compact(old(View()), applied, data)
    {
      if applied <= log.snapIndex || applied > commit { return None; }
      var term := log.View().TermOf(applied);
      if term.None? { return None; }
      var voters := VotersUpTo(applied);
      votersBase := voters;
      log.Compact(applied, term.value);
      snapshot := Some(Snapshot(applied, term.value, voters, data));
      snap := snapshot;
    }

    // ------------------------------------------------------------- elections

    function UpToDate(lastIndex: Index, lastTerm: Term): (r: bool)
      reads this, log
      ensures r == LogUpToDate(View(), lastIndex, lastTerm)
    {
      lastTerm > log.View().LastTerm() || (lastTerm == log.View().LastTerm() && lastIndex >= log.View().LastIndex())
    }

    method OnPreVote(m: Message)
      requires m.body.PreVote?
      modifies this`output
      ensures View() == HandlePreVote(old(View()), m)
      ensures var granted := && old(hs.term) < m.term && RaftRules.AsGood(old(View()), m.body.lastLogIndex, m.body.lastLogTerm)
                             && (old(leaderId) == None || old(electionElapsed) >= cfg.electionTickMin);
              RaftRules.OnlySends(old(View()), View(), m.from, if granted then m.term else old(hs.term), PreVoteResp(granted))
    {
      RaftRules.PreVoteRule(View(), m, 0);
      var leaderAlive := leaderId.Some? && electionElapsed < cfg.electionTickMin;
      var granted := m.term > hs.term && UpToDate(m.body.lastLogIndex, m.body.lastLogTerm) && !leaderAlive;
      Emit(m.from, if granted then m.term else hs.term, PreVoteResp(granted));
    }

    method OnPreVoteResp(m: Message, rnd: nat)
      requires m.body.PreVoteResp?
      modifies this, log
      ensures View() == HandlePreVoteResp(old(View()), m, rnd)
    {
      if !m.body.granted {
        if m.term > hs.term { StepDown(m.term, None, rnd); }
        return;
      }
      if role != PreCandidate || m.term != hs.term + 1 { return; }
      votes := votes[m.from := true];
      var granted := CountGranted();
      var q := Quorum();
      if granted >= q { StartCampaign(rnd); }
    }

    method OnRequestVote(from: NodeId, lli: Index, llt: Term, rnd: nat)
      modifies this
      ensures View() == HandleRequestVote(old(View()), from, lli, llt, rnd)
    {
      var granted := (hs.votedFor.None? || hs.votedFor == Some(from)) && UpToDate(lli, llt);
      if granted {
        ChangeVote(Some(from));
        ResetElectionTimer(rnd);
      }
      Emit(from, hs.term, RequestVoteResp(granted));
    }

    method OnRequestVoteResp(from: NodeId, granted: bool, rnd: nat)
      modifies this, log
      ensures View() == HandleRequestVoteResp(old(View()), from, granted, rnd)
    {
      if role != Candidate { return; }
      votes := votes[from := granted];
      var n := CountGranted();
      var q := Quorum();
      if n >= q { TakeLead(rnd); }
    }

    // ------------------------------------------------------------- following

    method ReplyAppend(to: NodeId, success: bool, matchIndex: Index, conflict: Index, ctx: nat)
      modifies this`output
      ensures View() == Reply(old(View()), to, success, matchIndex, conflict, ctx)
    {
      Emit(to, hs.term, AppendEntriesResp(success, matchIndex, conflict, ctx));
    }

    /** Walks back over the run of entries of term `t` that ends at `c`. */
    method FindConflict(c: Index, t: Term) returns (conflict: Index)
      ensures conflict == ConflictHint(log.View(), c, t)
    {
      conflict := c;
      while conflict > log.snapIndex + 1 && log.View().TermOf(conflict - 1) == Some(t)
        invariant ConflictHint(log.View(), conflict, t) == ConflictHint(log.View(), c, t)
      {
        conflict := conflict - 1;
      }
    }

    /** Position of the first entry the log does not hold yet. */
    method FindNew(entries: seq<Entry>) returns (i: nat)
      ensures i == FirstNew(log.View(), entries) <= |entries|
    {
      i := 0;
      while i < |entries| && log.View().TermOf(entries[i].index) == Some(entries[i].term)
        invariant i <= |entries|
        invariant i + FirstNew(log.View(), entries[i..]) == FirstNew(log.View(), entries)
      {
        assert entries[i..][0] == entries[i] && entries[i..][1..] == entries[i + 1..];
        i := i + 1;
      }
    }

    /** Drops a conflicting suffix and appends what is new; a committed entry is never overwritten. */
    method AbsorbEntries(entries: seq<Entry>)
      requires !MergePanics(View(), entries)
      modifies this`output, log
      ensures View() == Absorb(old(View()), entries)
    {
      var i := FindNew(entries);
      if i < |entries| && log.View().TermOf(entries[i].index).Some? {
        assert entries[i].index > commit && entries[i].index > log.snapIndex;
        log.TruncateFrom(entries[i].index);
      }
      log.PushAll(entries[i..]);
      assert log.View() == Merged(old(log.View()), entries) by { assert i == |entries| ==> old(log.entries) + entries[i..] == old(log.entries); }
      output := output.(append := output.append + entries[i..]);
    }

    method AcceptAppend(from: NodeId, prev: Index, entries: seq<Entry>, leaderCommit: Index, ctx: nat, rnd: nat)
      requires !MergePanics(View(), entries)
      modifies this, log
      ensures View() == AcceptEntries(old(View()), from, prev, entries, leaderCommit, ctx, rnd)
    {
      AbsorbEntries(entries);
      var last := prev + |entries|;
      var target := Min(leaderCommit, last);
      if target > commit { AdvanceCommitTo(target, rnd); }
      ReplyAppend(from, true, last, 0, ctx);
    }

    method TakeAppend(from: NodeId, prev: Index, prevTerm: Term, entries: seq<Entry>, leaderCommit: Index, ctx: nat, rnd: nat)
      requires log.View().TermOf(prev) == Some(prevTerm) ==> !MergePanics(View(), entries)
      modifies this, log
      ensures View() == AppendAt(old(View()), from, prev, prevTerm, entries, leaderCommit, ctx, rnd)
    {
      match log.View().TermOf(prev) {
        case None => ReplyAppend(from, false, 0, log.View().LastIndex() + 1, ctx);
        case Some(t) =>
          if t != prevTerm {
            var conflict := FindConflict(prev, t);
            ReplyAppend(from, false, 0, conflict, ctx);
          } else {
            AcceptAppend(from, prev, entries, leaderCommit, ctx, rnd);
          }
      }
    }

    method HearLeader(from: NodeId)
      modifies this
      ensures View() == Heard(old(View()), from)
    {
      role, leaderId, electionElapsed := Follower, Some(from), 0;
    }

    method OnAppendEntries(from: NodeId, prev: Index, prevTerm: Term, entries: seq<Entry>, leaderCommit: Index, ctx: nat, rnd: nat)
      requires !AppendPanics(View(), prev, prevTerm, entries)
      modifies this, log
      ensures View() == HandleAppend(old(View()), from, prev, prevTerm, entries, leaderCommit, ctx, rnd)
      ensures RaftRules.InSequence(entries, prev) && old(log.snapIndex) <= old(commit) ==>
              RaftRules.Emits(old(output.committed), View(), old(commit),
                              if RaftRules.Taken(old(log.View()), prev, prevTerm, entries) then Max(old(commit), Min(leaderCommit, prev + |entries|)) else old(commit))
    {
      if RaftRules.InSequence(entries, prev) && log.snapIndex <= commit {
        RaftRules.AppendHandled(View(), from, prev, prevTerm, entries, leaderCommit, ctx, rnd);
      }
      HandleEntries(from, prev, prevTerm, entries, leaderCommit, ctx, rnd);
    }

    /** Skips what the snapshot covers and takes the rest. */
    method HandleEntries(from: NodeId, prev: Index, prevTerm: Term, entries: seq<Entry>, leaderCommit: Index, ctx: nat, rnd: nat)
      requires !AppendPanics(View(), prev, prevTerm, entries)
      modifies this, log
      ensures View() == HandleAppend(old(View()), from, prev, prevTerm, entries, leaderCommit, ctx, rnd)
    {
      HearLeader(from);
      if prev >= log.snapIndex {
        TakeAppend(from, prev, prevTerm, entries, leaderCommit, ctx, rnd);
        return;
      }
      var covered := log.snapIndex - prev;
      if covered >= |entries| {
        ReplyAppend(from, true, log.snapIndex, 0, ctx);
        return;
      }
      TakeAppend(from, log.snapIndex, log.snapTerm, entries[covered..], leaderCommit, ctx, rnd);
    }

    method OnInstallSnapshot(from: NodeId, s: Snapshot, rnd: nat)
      modifies this, log
      ensures View() == HandleSnapshot(old(View()), from, s, rnd)
    {
      HearLeader(from);
      if s.lastIndex <= commit {
        Emit(from, hs.term, InstallSnapshotResp(commit));
        return;
      }
      if log.View().TermOf(s.lastIndex) == Some(s.lastTerm) {
        AdvanceCommitTo(s.lastIndex, rnd);
        Emit(from, hs.term, InstallSnapshotResp(s.lastIndex));
        return;
      }
      log.ResetToSnapshot(s.lastIndex, s.lastTerm);
      commit, votersBase, snapshot := s.lastIndex, s.voters, Some(s);
      output := output.(snapshot := Some(s));
      Emit(from, hs.term, InstallSnapshotResp(s.lastIndex));
    }

    // ------------------------------------------------------------- leading

    method OnAppendAck(from: NodeId, pr: Progress, matchIndex: Index, rnd: nat)
      modifies this
      ensures View() == KeepSending(Replicated(old(View()), from, Advanced(pr, matchIndex), rnd), from, old(View()).log.LastIndex())
    {
      var last := log.View().LastIndex();
      prs := prs[from := pr.(matched := Max(pr.matched, matchIndex), next := Max(pr.next, matchIndex + 1), inflight := Max(pr.inflight - 1, 0))];
      MaybeAdvanceCommit(rnd);
      CountReadAcks();
      if from in prs && prs[from].next <= last { SendAppendTo(from); }
    }

    method OnAppendResp(from: NodeId, success: bool, matchIndex: Index, conflict: Index, ctx: nat, rnd: nat)
      modifies this
      ensures View() == HandleAppendResp(old(View()), from, success, matchIndex, conflict, ctx, rnd)
    {
      if role != Leader || from !in prs { return; }
      var last := log.View().LastIndex();
      var pr := prs[from].(ackedReadCtx := Max(prs[from].ackedReadCtx, ctx));
      if success {
        OnAppendAck(from, pr, matchIndex, rnd);
      } else if conflict > 0 {
        prs := prs[from := pr.(next := Min(Max(conflict, 1), last + 1), inflight := 0)];
        SendAppendTo(from);
      } else {
        prs := prs[from := pr];
      }
    }

    method OnInstallSnapshotResp(from: NodeId, lastIndex: Index, rnd: nat)
      modifies this
      ensures View() == HandleSnapshotResp(old(View()), from, lastIndex, rnd)
    {
      if role != Leader || from !in prs { return; }
      var pr := prs[from];
      prs := prs[from := pr.(pendingSnapshot := false, matched := Max(pr.matched, lastIndex), next := Max(pr.next, lastIndex + 1), inflight := 0)];
      MaybeAdvanceCommit(rnd);
      SendAppendTo(from);
    }

    // ------------------------------------------------------------- step

    /** Tells a sender of an older term the present one. */
    method AnswerOlder(m: Message)
      modifies this`output
      ensures View() == AnswerStale(old(View()), m)
    {
      match m.body {
        case AppendEntries(_, _, _, _, ctx) => ReplyAppend(m.from, false, 0, 0, ctx);
        case RequestVote(_, _) => Emit(m.from, hs.term, RequestVoteResp(false));
        case _ =>
      }
    }

    method Handle(m: Message, rnd: nat)
      requires m.body.AppendEntries? ==> !AppendPanics(View(), m.body.prevLogIndex, m.body.prevLogTerm, m.body.entries)
      modifies this, log
      ensures View() == Dispatch(old(View()), m, rnd)
    {
      match m.body {
        case RequestVote(lli, llt) => OnRequestVote(m.from, lli, llt, rnd);
        case RequestVoteResp(granted) => OnRequestVoteResp(m.from, granted, rnd);
        case AppendEntries(prev, prevTerm, entries, leaderCommit, ctx) => OnAppendEntries(m.from, prev, prevTerm, entries, leaderCommit, ctx, rnd);
        case AppendEntriesResp(success, matchIndex, conflict, ctx) => OnAppendResp(m.from, success, matchIndex, conflict, ctx, rnd);
        case InstallSnapshot(s) => OnInstallSnapshot(m.from, s, rnd);
        case InstallSnapshotResp(lastIndex) => OnInstallSnapshotResp(m.from, lastIndex, rnd);
        case _ =>
      }
    }

    /** Delivers a message.  The precondition names the node's own panics; no run of the cluster trips them. */
    method Step(m: Message, rnd: nat)
      requires !StepPanics(View(), m, rnd)
      modifies this, log
      ensures View() == RaftCore.Step(old(View()), m, rnd)
    {
      if m.body.PreVote? { OnPreVote(m); return; }
      if m.body.PreVoteResp? { OnPreVoteResp(m, rnd); return; }
      if m.term < hs.term { AnswerOlder(m); return; }
      if m.term > hs.term {
        StepDown(m.term, if m.body.AppendEntries? || m.body.InstallSnapshot? then Some(m.from) else None, rnd);
      }
      Handle(m, rnd);
    }
  }
}
