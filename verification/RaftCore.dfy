/** The Raft node (crates/raft/src/node.rs) as functions on values.

    `RaftNode` is the imperative node proved against these functions.  The random draw
    of an election timeout is the parameter `rnd`: the value of the last draw of the event. */
module RaftCore {
  import opened Prelude
  import opened RaftTypes
  import opened RaftLogs
  import Kvsm

  datatype Config = Config(id: NodeId, electionTickMin: nat, heartbeatTick: nat,
                           maxBatch: nat, maxInflight: nat, preVote: bool)

  datatype Progress = Progress(next: Index, matched: Index, inflight: nat,
                               pendingSnapshot: bool, snapshotSentTick: nat, ackedReadCtx: nat)

  datatype PendingRead = PendingRead(ctx: nat, id: nat, index: Index)

  datatype Node = Node(
    cfg: Config,
    log: RaftLog,
    hs: HardState,
    role: Role,
    leaderId: Option<NodeId>,
    commit: Index,
    snapshot: Option<Snapshot>,
    votersBase: seq<NodeId>,
    electionElapsed: nat,
    timeout: nat,
    heartbeatElapsed: nat,
    ticks: nat,
    votes: map<NodeId, bool>,
    prs: map<NodeId, Progress>,
    readCtx: nat,
    pendingReads: seq<PendingRead>,
    out: Output)

  function NewProgress(next: Index): Progress { Progress(next, 0, 0, false, 0, 0) }

  function New(cfg: Config, initialVoters: seq<NodeId>, disk: Persisted, rnd: nat): Node {
    var snap := disk.snapshot;
    var log := match snap
      case Some(s) => RaftLog(s.lastIndex, s.lastTerm, disk.entries)
      case None => RaftLog(0, 0, disk.entries);
    Node(cfg, log, disk.hardState, Follower, None, log.snapIndex, snap,
         if snap.Some? then snap.value.voters else initialVoters,
         0, rnd, 0, 0, map[], map[], 0, [], NO_OUTPUT)
  }

  // ------------------------------------------------------------- voters

  function ApplyConf(v: seq<NodeId>, p: Payload): seq<NodeId> {
    match p
    case Conf(AddNode(id)) => if id in v then v else v + [id]
    case Conf(RemoveNode(id)) => Without(v, id)
    case _ => v
  }

  function Without(v: seq<NodeId>, id: NodeId): seq<NodeId> {
    if v == [] then []
    else if v[0] == id then Without(v[1..], id)
    else [v[0]] + Without(v[1..], id)
  }

  /** `voters_at`: the base configuration with every change at or below `idx` applied. */
  function VotersAt(v: seq<NodeId>, entries: seq<Entry>, idx: Index): seq<NodeId>
    decreases |entries|
  {
    if entries == [] || entries[0].index > idx then v
    else VotersAt(ApplyConf(v, entries[0].payload), entries[1..], idx)
  }

  function Voters(n: Node): seq<NodeId> { VotersAt(n.votersBase, n.log.entries, n.log.LastIndex()) }

  function QuorumSize(n: Node): nat { |Voters(n)| / 2 + 1 }

  function Granted(n: Node): set<NodeId> { set p | p in n.votes && n.votes[p] && p in Voters(n) }

  /** Largest first. */
  function SortDesc(s: seq<nat>): seq<nat> {
    if s == [] then [] else InsertDesc(s[0], SortDesc(s[1..]))
  }

  function InsertDesc(x: nat, s: seq<nat>): seq<nat> {
    if s == [] || x >= s[0] then [x] + s else [s[0]] + InsertDesc(x, s[1..])
  }

  // ------------------------------------------------------------- output and hard state

  function Send(n: Node, to: NodeId, term: Term, body: Body): Node {
    n.(out := n.out.(messages := n.out.messages + [Message(n.cfg.id, to, term, body)]))
  }

  function SendEach(n: Node, peers: seq<NodeId>, term: Term, body: Body): Node
    decreases |peers|
  {
    if peers == [] then n
    else SendEach(if peers[0] == n.cfg.id then n else Send(n, peers[0], term, body), peers[1..], term, body)
  }

  function SetHard(n: Node, hs: HardState): Node {
    if n.hs == hs then n else n.(hs := hs, out := n.out.(hardState := Some(hs)))
  }

  function SetTerm(n: Node, t: Term): Node { SetHard(n, n.hs.(term := t)) }

  function SetVote(n: Node, v: Option<NodeId>): Node { SetHard(n, n.hs.(votedFor := v)) }

  function ResetTimer(n: Node, rnd: nat): Node { n.(timeout := rnd, electionElapsed := 0) }

  // ------------------------------------------------------------- replication

  function SyncProgress(n: Node): Node {
    if n.role != Leader then n else
    n.(prs := map p | p in Voters(n) && (p != n.cfg.id || p in n.prs) ::
                if p in n.prs then n.prs[p] else NewProgress(n.log.LastIndex() + 1))
  }

  /** A snapshot transfer is outstanding and not yet due for a retry. */
  predicate Deferred(n: Node, pr: Progress) {
    pr.pendingSnapshot && Max(n.ticks - pr.snapshotSentTick, 0) < n.cfg.electionTickMin
  }

  predicate PipelineFull(n: Node, pr: Progress) {
    n.log.Slice(pr.next, n.cfg.maxBatch) != [] && pr.inflight >= n.cfg.maxInflight
  }

  /** The entries of the next append; a full pipeline still sends a heartbeat. */
  function Batch(n: Node, pr: Progress): seq<Entry> {
    if PipelineFull(n, pr) then [] else n.log.Slice(pr.next, n.cfg.maxBatch)
  }

  function AfterBatch(n: Node, pr: Progress): Progress {
    if PipelineFull(n, pr) then pr.(inflight := Max(pr.inflight - 1, 0))
    else if Batch(n, pr) != [] then pr.(next := pr.next + |Batch(n, pr)|, inflight := pr.inflight + 1)
    else pr
  }

  function WithProgress(n: Node, peer: NodeId, pr: Progress): Node { n.(prs := n.prs[peer := pr]) }

  function SendAppend(n: Node, peer: NodeId): Node {
    if peer !in n.prs || Deferred(n, n.prs[peer]) then n else
    var pr := n.prs[peer].(pendingSnapshot := false);
    if pr.next <= n.log.snapIndex then
      if n.snapshot.Some? then
        Send(WithProgress(n, peer, pr.(pendingSnapshot := true, snapshotSentTick := n.ticks)),
             peer, n.hs.term, InstallSnapshot(n.snapshot.value))
      else WithProgress(n, peer, pr)
    else
      var prevTerm := n.log.TermOf(pr.next - 1);
      if prevTerm.None? then WithProgress(n, peer, pr) else
      Send(WithProgress(n, peer, AfterBatch(n, pr)), peer, n.hs.term,
           AppendEntries(pr.next - 1, prevTerm.value, Batch(n, pr), n.commit, n.readCtx))
  }

  function SendAppends(n: Node, peers: seq<NodeId>): Node
    decreases |peers|
  {
    if peers == [] then n else SendAppends(SendAppend(n, peers[0]), peers[1..])
  }

  lemma {:induction false} HasLeast(s: set<NodeId>) returns (x: NodeId)
    requires s != {}
    ensures x in s && forall y :: y in s ==> x <= y
    decreases |s|
  {
    var y :| y in s;
    x := y;
    if s != {y} {
      var z := HasLeast(s - {y});
      if z < y { x := z; }
      assert s == (s - {y}) + {y};
    }
  }

  lemma LeastExists(s: set<NodeId>)
    requires s != {}
    ensures exists x :: x in s && forall y :: y in s ==> x <= y
  {
    var x := HasLeast(s);
  }

  function Least(s: set<NodeId>): NodeId
    requires s != {}
  {
    LeastExists(s);
    var x :| x in s && forall y :: y in s ==> x <= y;
    x
  }

  /** The keys of an ordered map, in the order it walks them. */
  function Ascending(s: set<NodeId>): seq<NodeId>
    decreases |s|
  {
    if s == {} then [] else [Least(s)] + Ascending(s - {Least(s)})
  }

  /** One append to every peer the leader tracks, in the order of their ids. */
  function Broadcast(n: Node): Node {
    var m := SyncProgress(n);
    SendAppends(m, Ascending(m.prs.Keys))
  }

  // ------------------------------------------------------------- commit

  /** The entries of the log in `(lo, hi]`, skipping indexes the log does not hold. */
  function Between(log: RaftLog, lo: Index, hi: Index): seq<Entry> {
    if hi <= lo then []
    else Between(log, lo, hi - 1) + (if log.Get(hi).Some? then [log.Get(hi).value] else [])
  }

  predicate RemovesSelf(n: Node, es: seq<Entry>) {
    exists e :: e in es && e.payload == Conf(RemoveNode(n.cfg.id))
  }

  function AdvanceCommit(n: Node, c: Index, rnd: nat): Node {
    var es := Between(n.log, n.commit, c);
    var m := n.(commit := c, out := n.out.(committed := n.out.committed + es));
    if n.role == Leader && RemovesSelf(n, es) then BecomeFollower(m, m.hs.term, None, rnd) else m
  }

  function MatchOf(n: Node, v: NodeId): Index {
    if v == n.cfg.id then n.log.LastIndex() else if v in n.prs then n.prs[v].matched else 0
  }

  function Matches(n: Node, voters: seq<NodeId>): seq<nat> {
    seq(|voters|, i requires 0 <= i < |voters| => MatchOf(n, voters[i]))
  }

  function MaybeAdvance(n: Node, rnd: nat): Node {
    var sorted := SortDesc(Matches(n, Voters(n)));
    if n.role != Leader || |sorted| < QuorumSize(n) then n else
    var c := sorted[QuorumSize(n) - 1];
    if c > n.commit && n.log.TermOf(c) == Some(n.hs.term) then AdvanceCommit(n, c, rnd) else n
  }

  function Pushed(n: Node, payload: Payload): Node {
    var e := Entry(n.hs.term, n.log.LastIndex() + 1, payload);
    n.(log := n.log.Push(e), out := n.out.(append := n.out.append + [e]))
  }

  function AppendLocal(n: Node, payload: Payload, rnd: nat): Node {
    Broadcast(MaybeAdvance(Pushed(n, payload), rnd))
  }

  // ------------------------------------------------------------- roles

  function BecomeFollower(n: Node, term: Term, leader: Option<NodeId>, rnd: nat): Node {
    var m := if term > n.hs.term then SetVote(SetTerm(n, term), None) else n;
    ResetTimer(m.(role := Follower, leaderId := leader, prs := map[], pendingReads := []), rnd)
  }

  /** Fresh progress for every other voter; the read rounds start over. */
  function AsLeader(n: Node): Node {
    n.(role := Leader, leaderId := Some(n.cfg.id), heartbeatElapsed := 0,
       pendingReads := [], readCtx := 0,
       prs := map p | p in Voters(n) && p != n.cfg.id :: NewProgress(n.log.LastIndex() + 1))
  }

  function BecomeLeader(n: Node, rnd: nat): Node {
    Broadcast(AppendLocal(AsLeader(n), Noop, rnd))
  }

  function AsCandidate(n: Node): Node {
    SetVote(SetTerm(n, n.hs.term + 1), Some(n.cfg.id))
      .(role := Candidate, leaderId := None, votes := map[n.cfg.id := true])
  }

  predicate HasQuorum(n: Node) { |Granted(n)| >= QuorumSize(n) }

  function Campaign(n: Node, rnd: nat): Node {
    var m := AsCandidate(n);
    if HasQuorum(m) then BecomeLeader(m, rnd)
    else SendEach(m, Voters(m), m.hs.term, RequestVote(m.log.LastIndex(), m.log.LastTerm()))
  }

  function AsPreCandidate(n: Node): Node { n.(role := PreCandidate, votes := map[n.cfg.id := true]) }

  function CampaignPre(n: Node, rnd: nat): Node {
    var m := AsPreCandidate(n);
    if HasQuorum(m) then Campaign(m, rnd)
    else SendEach(m, Voters(m), m.hs.term + 1, PreVote(m.log.LastIndex(), m.log.LastTerm()))
  }

  function TickLeader(n: Node): Node {
    if n.heartbeatElapsed + 1 >= n.cfg.heartbeatTick then Broadcast(n.(heartbeatElapsed := 0))
    else n.(heartbeatElapsed := n.heartbeatElapsed + 1)
  }

  function TickOther(n: Node, rnd: nat): Node {
    if n.electionElapsed + 1 < n.timeout then n.(electionElapsed := n.electionElapsed + 1)
    else if n.cfg.id !in Voters(n) then ResetTimer(n, rnd)
    else if n.cfg.preVote then CampaignPre(ResetTimer(n, rnd), rnd)
    else Campaign(ResetTimer(n, rnd), rnd)
  }

  function Tick(n0: Node, rnd: nat): Node {
    var n := n0.(ticks := n0.ticks + 1);
    if n.role == Leader then TickLeader(n) else TickOther(n, rnd)
  }

  lemma TickIsLeader(n0: Node, n: Node, rnd: nat)
    requires n == n0.(ticks := n0.ticks + 1) && n0.role == Leader
    ensures Tick(n0, rnd) == TickLeader(n)
  {}

  lemma TickIsOther(n0: Node, n: Node, rnd: nat)
    requires n == n0.(ticks := n0.ticks + 1) && n0.role != Leader
    ensures Tick(n0, rnd) == TickOther(n, rnd)
  {}

  // ------------------------------------------------------------- requests from the host

  datatype Answer<T> = Ok(value: T) | Refused(error: ProposeError)

  function Propose(n: Node, cmd: Kvsm.Command, rnd: nat): (Node, Answer<Index>) {
    if n.role != Leader then (n, Refused(NotLeader(n.leaderId)))
    else (AppendLocal(n, Normal(cmd), rnd), Ok(n.log.LastIndex() + 1))
  }

  function ReadyReads(pending: seq<PendingRead>, ctx: nat): seq<ReadState> {
    if pending == [] then []
    else (if pending[0].ctx <= ctx then [ReadState(pending[0].id, pending[0].index)] else []) + ReadyReads(pending[1..], ctx)
  }

  function WaitingReads(pending: seq<PendingRead>, ctx: nat): seq<PendingRead> {
    if pending == [] then []
    else (if pending[0].ctx <= ctx then [] else [pending[0]]) + WaitingReads(pending[1..], ctx)
  }

  function ReleaseReads(n: Node, ctx: nat): Node {
    n.(pendingReads := WaitingReads(n.pendingReads, ctx),
       out := n.out.(readStates := n.out.readStates + ReadyReads(n.pendingReads, ctx)))
  }

  function ReadIndex(n: Node, id: nat): (Node, Answer<()>) {
    if n.role != Leader then (n, Refused(NotLeader(n.leaderId)))
    else if n.log.TermOf(n.commit) != Some(n.hs.term) then (n, Refused(NotReady))
    else
      var ctx := n.readCtx + 1;
      var m := n.(readCtx := ctx, pendingReads := n.pendingReads + [PendingRead(ctx, id, n.commit)]);
      (if QuorumSize(m) == 1 then ReleaseReads(m, ctx) else Broadcast(m), Ok(()))
  }

  function ReadAckOf(n: Node, v: NodeId): nat {
    if v == n.cfg.id then n.readCtx else if v in n.prs then n.prs[v].ackedReadCtx else 0
  }

  function ReadAcks(n: Node, voters: seq<NodeId>): seq<nat> {
    seq(|voters|, i requires 0 <= i < |voters| => ReadAckOf(n, voters[i]))
  }

  function ProcessReadAcks(n: Node): Node {
    var sorted := SortDesc(ReadAcks(n, Voters(n)));
    if n.pendingReads == [] || |sorted| < QuorumSize(n) then n else
    var ctx := sorted[QuorumSize(n) - 1];
    if ctx > 0 then ReleaseReads(n, ctx) else n
  }

  /** Local compaction at `applied`; the snapshot is what the host must persist. */
  function Compact(n: Node, applied: Index, data: Kvsm.State): (Node, Option<Snapshot>) {
    if applied <= n.log.snapIndex || applied > n.commit || n.log.TermOf(applied).None? then (n, None)
    else
      var term := n.log.TermOf(applied).value;
      var voters := VotersAt(n.votersBase, n.log.entries, applied);
      var snap := Snapshot(applied, term, voters, data);
      (n.(votersBase := voters, log := n.log.Compact(applied, term), snapshot := Some(snap)), Some(snap))
  }

  // ------------------------------------------------------------- elections

  predicate LogUpToDate(n: Node, lastIndex: Index, lastTerm: Term) {
    lastTerm > n.log.LastTerm() || (lastTerm == n.log.LastTerm() && lastIndex >= n.log.LastIndex())
  }

  function HandlePreVote(n: Node, m: Message): Node
    requires m.body.PreVote?
  {
    var leaderAlive := n.leaderId.Some? && n.electionElapsed < n.cfg.electionTickMin;
    var granted := m.term > n.hs.term && LogUpToDate(n, m.body.lastLogIndex, m.body.lastLogTerm) && !leaderAlive;
    Send(n, m.from, if granted then m.term else n.hs.term, PreVoteResp(granted))
  }

  function HandlePreVoteResp(n: Node, m: Message, rnd: nat): Node
    requires m.body.PreVoteResp?
  {
    if !m.body.granted then
      if m.term > n.hs.term then BecomeFollower(n, m.term, None, rnd) else n
    else if n.role != PreCandidate || m.term != n.hs.term + 1 then n
    else
      var n2 := n.(votes := n.votes[m.from := true]);
      if HasQuorum(n2) then Campaign(n2, rnd) else n2
  }

  function HandleRequestVote(n: Node, from: NodeId, lli: Index, llt: Term, rnd: nat): Node {
    var granted := (n.hs.votedFor.None? || n.hs.votedFor == Some(from)) && LogUpToDate(n, lli, llt);
    var n2 := if granted then ResetTimer(SetVote(n, Some(from)), rnd) else n;
    Send(n2, from, n2.hs.term, RequestVoteResp(granted))
  }

  function HandleRequestVoteResp(n: Node, from: NodeId, granted: bool, rnd: nat): Node {
    if n.role != Candidate then n else
    var n2 := n.(votes := n.votes[from := granted]);
    if HasQuorum(n2) then BecomeLeader(n2, rnd) else n2
  }

  // ------------------------------------------------------------- following

  function Reply(n: Node, to: NodeId, success: bool, matchIndex: Index, conflict: Index, ctx: nat): Node {
    Send(n, to, n.hs.term, AppendEntriesResp(success, matchIndex, conflict, ctx))
  }

  /** First index of the run of entries of term `t` that ends at `c`, within the log. */
  function ConflictHint(log: RaftLog, c: Index, t: Term): Index {
    if c > log.FirstIndex() && log.TermOf(c - 1) == Some(t) then ConflictHint(log, c - 1, t) else c
  }

  /** Position of the first entry the log does not already hold with the same term. */
  function FirstNew(log: RaftLog, entries: seq<Entry>): nat {
    if entries == [] then 0
    else if log.TermOf(entries[0].index) == Some(entries[0].term) then 1 + FirstNew(log, entries[1..])
    else 0
  }

  /** The log after dropping everything from the first new entry on and appending the rest. */
  function Merged(log: RaftLog, entries: seq<Entry>): RaftLog {
    var i := FirstNew(log, entries);
    if i >= |entries| then log
    else
      var idx := entries[i].index;
      var kept := if log.TermOf(idx).Some? && idx > log.snapIndex then log.TruncateFrom(idx) else log;
      kept.(entries := kept.entries + entries[i..])
  }

  /** The overwrite assertion, the truncate-into-snapshot panic or the contiguity check fires. */
  predicate MergePanics(n: Node, entries: seq<Entry>) {
    var i := FirstNew(n.log, entries);
    i < |entries| &&
      var idx := entries[i].index;
      || (n.log.TermOf(idx).Some? && (idx <= n.commit || idx <= n.log.snapIndex))
      || (exists j :: i <= j < |entries| &&
            entries[j].index != (if n.log.TermOf(idx).Some? then idx else n.log.LastIndex() + 1) + (j - i))
  }

  function Absorb(n: Node, entries: seq<Entry>): Node {
    n.(log := Merged(n.log, entries),
       out := n.out.(append := n.out.append + entries[Min(FirstNew(n.log, entries), |entries|)..]))
  }

  function CommitUpTo(n: Node, target: Index, rnd: nat): Node {
    if target > n.commit then AdvanceCommit(n, target, rnd) else n
  }

  function AcceptEntries(n: Node, from: NodeId, prev: Index, entries: seq<Entry>,
                         leaderCommit: Index, ctx: nat, rnd: nat): Node
  {
    var last := prev + |entries|;
    Reply(CommitUpTo(Absorb(n, entries), Min(leaderCommit, last), rnd), from, true, last, 0, ctx)
  }

  function AppendAt(n: Node, from: NodeId, prev: Index, prevTerm: Term, entries: seq<Entry>,
                    leaderCommit: Index, ctx: nat, rnd: nat): Node
  {
    match n.log.TermOf(prev)
    case None => Reply(n, from, false, 0, n.log.LastIndex() + 1, ctx)
    case Some(t) =>
      if t != prevTerm then Reply(n, from, false, 0, ConflictHint(n.log, prev, t), ctx)
      else AcceptEntries(n, from, prev, entries, leaderCommit, ctx, rnd)
  }

  function Heard(n: Node, from: NodeId): Node {
    n.(role := Follower, leaderId := Some(from), electionElapsed := 0)
  }

  function HandleAppend(n0: Node, from: NodeId, prev: Index, prevTerm: Term, entries: seq<Entry>,
                        leaderCommit: Index, ctx: nat, rnd: nat): Node
  {
    var n := Heard(n0, from);
    var snap := n.log.snapIndex;
    if prev >= snap then AppendAt(n, from, prev, prevTerm, entries, leaderCommit, ctx, rnd)
    else if snap - prev >= |entries| then Reply(n, from, true, snap, 0, ctx)
    else AppendAt(n, from, snap, n.log.snapTerm, entries[snap - prev..], leaderCommit, ctx, rnd)
  }

  predicate AppendPanics(n: Node, prev: Index, prevTerm: Term, entries: seq<Entry>) {
    var snap := n.log.snapIndex;
    if prev >= snap then n.log.TermOf(prev) == Some(prevTerm) && MergePanics(n, entries)
    else snap - prev < |entries| && MergePanics(n, entries[snap - prev..])
  }

  function HandleSnapshot(n0: Node, from: NodeId, s: Snapshot, rnd: nat): Node {
    var n := Heard(n0, from);
    if s.lastIndex <= n.commit then
      Send(n, from, n.hs.term, InstallSnapshotResp(n.commit))
    else if n.log.TermOf(s.lastIndex) == Some(s.lastTerm) then
      // The snapshot describes a prefix of this log: keep the acknowledged suffix.
      var m := AdvanceCommit(n, s.lastIndex, rnd);
      Send(m, from, m.hs.term, InstallSnapshotResp(s.lastIndex))
    else
      Send(n.(log := n.log.ResetToSnapshot(s.lastIndex, s.lastTerm), commit := s.lastIndex,
              votersBase := s.voters, snapshot := Some(s), out := n.out.(snapshot := Some(s))),
           from, n.hs.term, InstallSnapshotResp(s.lastIndex))
  }

  // ------------------------------------------------------------- leading

  function Credited(pr: Progress, ctx: nat): Progress { pr.(ackedReadCtx := Max(pr.ackedReadCtx, ctx)) }

  function Advanced(pr: Progress, matchIndex: Index): Progress {
    pr.(matched := Max(pr.matched, matchIndex), next := Max(pr.next, matchIndex + 1),
        inflight := Max(pr.inflight - 1, 0))
  }

  function Replicated(n: Node, from: NodeId, pr: Progress, rnd: nat): Node {
    ProcessReadAcks(MaybeAdvance(WithProgress(n, from, pr), rnd))
  }

  /** Keep the pipeline full if the follower is still behind. */
  function KeepSending(n: Node, from: NodeId, last: Index): Node {
    if from in n.prs && n.prs[from].next <= last then SendAppend(n, from) else n
  }

  function HandleAppendResp(n: Node, from: NodeId, success: bool, matchIndex: Index,
                            conflict: Index, ctx: nat, rnd: nat): Node
  {
    if n.role != Leader || from !in n.prs then n else
    var last := n.log.LastIndex();
    var pr := Credited(n.prs[from], ctx);
    if success then KeepSending(Replicated(n, from, Advanced(pr, matchIndex), rnd), from, last)
    else if conflict > 0 then
      SendAppend(WithProgress(n, from, pr.(next := Min(Max(conflict, 1), last + 1), inflight := 0)), from)
    else WithProgress(n, from, pr)
  }

  function HandleSnapshotResp(n: Node, from: NodeId, lastIndex: Index, rnd: nat): Node {
    if n.role != Leader || from !in n.prs then n else
    var pr := n.prs[from];
    var pr2 := pr.(pendingSnapshot := false, matched := Max(pr.matched, lastIndex),
                   next := Max(pr.next, lastIndex + 1), inflight := 0);
    SendAppend(MaybeAdvance(WithProgress(n, from, pr2), rnd), from)
  }

  // ------------------------------------------------------------- step

  /** What a message of an older term is answered with. */
  function AnswerStale(n: Node, m: Message): Node {
    match m.body
    case AppendEntries(_, _, _, _, ctx) => Reply(n, m.from, false, 0, 0, ctx)
    case RequestVote(_, _) => Send(n, m.from, n.hs.term, RequestVoteResp(false))
    case _ => n
  }

  /** The receiver's state after it has caught up with the term of the message. */
  function CatchUp(n: Node, m: Message, rnd: nat): Node {
    if m.term > n.hs.term then
      BecomeFollower(n, m.term, if m.body.AppendEntries? || m.body.InstallSnapshot? then Some(m.from) else None, rnd)
    else n
  }

  function Dispatch(n: Node, m: Message, rnd: nat): Node {
    match m.body
    case RequestVote(lli, llt) => HandleRequestVote(n, m.from, lli, llt, rnd)
    case RequestVoteResp(g) => HandleRequestVoteResp(n, m.from, g, rnd)
    case AppendEntries(prev, prevTerm, es, lc, ctx) => HandleAppend(n, m.from, prev, prevTerm, es, lc, ctx, rnd)
    case AppendEntriesResp(ok, mi, ci, ctx) => HandleAppendResp(n, m.from, ok, mi, ci, ctx, rnd)
    case InstallSnapshot(s) => HandleSnapshot(n, m.from, s, rnd)
    case InstallSnapshotResp(li) => HandleSnapshotResp(n, m.from, li, rnd)
    case _ => n
  }

  function Step(n: Node, m: Message, rnd: nat): Node {
    if m.body.PreVote? then HandlePreVote(n, m)
    else if m.body.PreVoteResp? then HandlePreVoteResp(n, m, rnd)
    else if m.term < n.hs.term then AnswerStale(n, m)
    else Dispatch(CatchUp(n, m, rnd), m, rnd)
  }

  /** Handling the message would trip one of the node's own assertions. */
  predicate StepPanics(n: Node, m: Message, rnd: nat) {
    m.body.AppendEntries? && m.term >= n.hs.term &&
      AppendPanics(CatchUp(n, m, rnd), m.body.prevLogIndex, m.body.prevLogTerm, m.body.entries)
  }
}
