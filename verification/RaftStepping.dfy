/** Every entry point of the node, against the protocol. */
module RaftStepping {
  import opened Prelude
  import opened RaftTypes
  import opened RaftLogs
  import opened RaftCore
  import opened RaftHost
  import opened RaftProtocol
  import opened RaftActions
  import opened RaftSafety
  import opened RaftLeading
  import opened RaftCoupling
  import opened RaftSending
  import opened RaftDisk
  import opened RaftElecting
  import opened RaftCommitting
  import opened RaftFollowing
  import opened RaftHandling
  import Kvsm

  ghost predicate Quiet(n: Node) { n.out.append == [] && n.out.committed == [] }

  // ------------------------------------------------------------- votes

  lemma HandleRequestVoteRespGoing(w: World, x: Ctx, n: Node, from: NodeId, granted: bool, rnd: nat) returns (w2: World)
    requires Safe(w) && Going(w, x, n)
    requires MsgOk(w, x.voters, Message(from, x.id, n.hs.term, RequestVoteResp(granted)))
    ensures By(w, w2, x.id) && Safe(w2) && Going(w2, x, HandleRequestVoteResp(n, from, granted, rnd))
  {
    w2 := w;
    ByReflexive(w, x.id);
    if n.role == Candidate {
      var n2 := n.(votes := n.votes[from := granted]);
      assert CandidateOk(w, n);
      assert VotesOk(w, n2);
      SameCoreGoing(w, x, n, n2);
      if HasQuorum(n2) { w2 := BecomeLeaderGoing(w, x, n2, rnd); }
    }
  }

  lemma HandlePreVoteGoing(w: World, x: Ctx, n: Node, m: Message)
    requires Going(w, x, n) && m.body.PreVote?
    ensures Going(w, x, HandlePreVote(n, m))
  {
    var leaderAlive := n.leaderId.Some? && n.electionElapsed < n.cfg.electionTickMin;
    var granted := m.term > n.hs.term && LogUpToDate(n, m.body.lastLogIndex, m.body.lastLogTerm) && !leaderAlive;
    SendGoing(w, x, n, m.from, if granted then m.term else n.hs.term, PreVoteResp(granted));
  }

  lemma HandlePreVoteRespGoing(w: World, x: Ctx, n: Node, m: Message, rnd: nat) returns (w2: World)
    requires Safe(w) && Going(w, x, n) && m.body.PreVoteResp?
    ensures By(w, w2, x.id) && Safe(w2) && Going(w2, x, HandlePreVoteResp(n, m, rnd))
  {
    w2 := w;
    ByReflexive(w, x.id);
    if !m.body.granted {
      if m.term > n.hs.term {
        BecomeFollowerGoing(w, x, n, m.term, None, rnd);
        w2 := Followed(w, n, m.term);
      }
    } else if n.role == PreCandidate && m.term == n.hs.term + 1 {
      var n2 := n.(votes := n.votes[m.from := true]);
      SameCoreGoing(w, x, n, n2);
      PreVoteRespIs(n, m, rnd, n2);
      if HasQuorum(n2) { w2 := CampaignGoing(w, x, n2, rnd); }
    }
  }

  lemma PreVoteRespIs(n: Node, m: Message, rnd: nat, n2: Node)
    requires m.body.PreVoteResp? && m.body.granted && n.role == PreCandidate && m.term == n.hs.term + 1
    requires n2 == n.(votes := n.votes[m.from := true])
    ensures HandlePreVoteResp(n, m, rnd) == if HasQuorum(n2) then Campaign(n2, rnd) else n2
  {}

  // ------------------------------------------------------------- requests of the host

  lemma ProposeGoing(w: World, x: Ctx, n: Node, cmd: Kvsm.Command, rnd: nat) returns (w2: World)
    requires Safe(w) && Going(w, x, n)
    ensures By(w, w2, x.id) && Safe(w2) && Going(w2, x, Propose(n, cmd, rnd).0)
  {
    w2 := w;
    ByReflexive(w, x.id);
    if n.role == Leader { w2 := AppendLocalGoing(w, x, n, Normal(cmd), rnd); }
  }

  lemma ReadIndexGoing(w: World, x: Ctx, n: Node, id: nat)
    requires Safe(w) && Going(w, x, n)
    ensures Going(w, x, ReadIndex(n, id).0)
  {
    if n.role == Leader && n.log.TermOf(n.commit) == Some(n.hs.term) {
      var ctx := n.readCtx + 1;
      var m := n.(readCtx := ctx, pendingReads := n.pendingReads + [PendingRead(ctx, id, n.commit)]);
      SameCoreGoing(w, x, n, m);
      SameCoreGoing(w, x, n, ReleaseReads(m, ctx));
      BroadcastGoing(w, x, m);
      ReadIndexIs(n, id, m, ctx);
    }
  }

  lemma ReadIndexIs(n: Node, id: nat, m: Node, ctx: nat)
    requires n.role == Leader && n.log.TermOf(n.commit) == Some(n.hs.term) && ctx == n.readCtx + 1
    requires m == n.(readCtx := ctx, pendingReads := n.pendingReads + [PendingRead(ctx, id, n.commit)])
    ensures ReadIndex(n, id).0 == if QuorumSize(m) == 1 then ReleaseReads(m, ctx) else Broadcast(m)
  {}

  // ------------------------------------------------------------- messages

  lemma AnswerStaleGoing(w: World, x: Ctx, n: Node, m: Message)
    requires Going(w, x, n)
    ensures Going(w, x, AnswerStale(n, m))
  {
    match m.body {
      case AppendEntries(_, _, _, _, ctx) => RefuseGoing(w, x, n, m.from, 0, ctx);
      case RequestVote(_, _) => SendGoing(w, x, n, m.from, n.hs.term, RequestVoteResp(false));
      case _ =>
    }
  }

  /** The message belongs to the receiver's term. */
  ghost predicate Current(w: World, x: Ctx, n: Node, m: Message) {
    && Safe(w) && Going(w, x, n) && Quiet(n)
    && MsgOk(w, x.voters, m) && m.to == x.id && m.term == n.hs.term
  }

  lemma CatchUpGoing(w: World, x: Ctx, n: Node, m: Message, rnd: nat) returns (w2: World)
    requires Safe(w) && Going(w, x, n) && Quiet(n)
    requires MsgOk(w, x.voters, m) && m.to == x.id && m.term >= n.hs.term
    ensures By(w, w2, x.id) && Current(w2, x, CatchUp(n, m, rnd), m)
  {
    if m.term > n.hs.term {
      var leader := if m.body.AppendEntries? || m.body.InstallSnapshot? then Some(m.from) else None;
      BecomeFollowerGoing(w, x, n, m.term, leader, rnd);
      BecomeFollowerShape(n, m.term, leader, rnd);
      w2 := Followed(w, n, m.term);
      MsgOkGrows(w, w2, x.voters, m);
    } else {
      w2 := w;
      ByReflexive(w, x.id);
    }
  }

  lemma DispatchIs(n: Node, m: Message, rnd: nat)
    ensures Dispatch(n, m, rnd) ==
      match m.body
      case RequestVote(lli, llt) => HandleRequestVote(n, m.from, lli, llt, rnd)
      case RequestVoteResp(g) => HandleRequestVoteResp(n, m.from, g, rnd)
      case AppendEntries(prev, prevTerm, es, lc, ctx) => HandleAppend(n, m.from, prev, prevTerm, es, lc, ctx, rnd)
      case AppendEntriesResp(ok, mi, ci, ctx) => HandleAppendResp(n, m.from, ok, mi, ci, ctx, rnd)
      case InstallSnapshot(s) => HandleSnapshot(n, m.from, s, rnd)
      case InstallSnapshotResp(li) => HandleSnapshotResp(n, m.from, li, rnd)
      case _ => n
  {}

  lemma DispatchGoing(w: World, x: Ctx, n: Node, m: Message, rnd: nat) returns (w2: World)
    requires Current(w, x, n, m)
    ensures By(w, w2, x.id) && Safe(w2) && Going(w2, x, Dispatch(n, m, rnd))
  {
    DispatchIs(n, m, rnd);
    match m.body {
      case RequestVote(lli, llt) => w2 := HandleRequestVoteGoing(w, x, n, m.from, lli, llt, rnd);
      case RequestVoteResp(g) => w2 := HandleRequestVoteRespGoing(w, x, n, m.from, g, rnd);
      case AppendEntries(prev, prevTerm, es, lc, ctx) =>
        w2 := HandleAppendGoing(w, x, n, m.from, prev, prevTerm, es, lc, ctx, rnd);
      case AppendEntriesResp(ok, mi, ci, ctx) =>
        w2 := HandleAppendRespGoing(w, x, n, m.from, ok, mi, ci, ctx, rnd);
      case InstallSnapshot(s) => w2 := HandleSnapshotGoing(w, x, n, m.from, s, rnd);
      case InstallSnapshotResp(li) => w2 := HandleSnapshotRespGoing(w, x, n, m.from, li, rnd);
      case _ =>
        w2 := w;
        ByReflexive(w, x.id);
    }
  }

  lemma StepGoing(w: World, x: Ctx, n: Node, m: Message, rnd: nat) returns (w2: World)
    requires Safe(w) && Going(w, x, n) && Quiet(n) && MsgOk(w, x.voters, m) && m.to == x.id
    ensures By(w, w2, x.id) && Safe(w2) && Going(w2, x, Step(n, m, rnd))
  {
    if m.body.PreVote? {
      w2 := w;
      ByReflexive(w, x.id);
      HandlePreVoteGoing(w, x, n, m);
    } else if m.body.PreVoteResp? {
      w2 := HandlePreVoteRespGoing(w, x, n, m, rnd);
    } else if m.term < n.hs.term {
      w2 := w;
      ByReflexive(w, x.id);
      AnswerStaleGoing(w, x, n, m);
    } else {
      var w1 := CatchUpGoing(w, x, n, m, rnd);
      w2 := DispatchGoing(w1, x, CatchUp(n, m, rnd), m, rnd);
      ByTransitive(w, w1, w2, x.id);
    }
  }

  /** No deliverable message makes a node trip its own assertions. */
  lemma StepNeverPanics(w: World, x: Ctx, n: Node, m: Message, rnd: nat)
    requires Safe(w) && Going(w, x, n) && Quiet(n) && MsgOk(w, x.voters, m) && m.to == x.id
    ensures !StepPanics(n, m, rnd)
  {
    if m.body.AppendEntries? && m.term >= n.hs.term {
      var w1 := CatchUpGoing(w, x, n, m, rnd);
      HandleAppendSafe(w1, x, CatchUp(n, m, rnd), m.body.prevLogIndex, m.body.prevLogTerm,
                       m.body.entries, m.body.leaderCommit);
    }
  }

  lemma ReactGoing(w: World, x: Ctx, n: Node, ev: Event) returns (w2: World)
    requires Safe(w) && Going(w, x, n) && Quiet(n)
    requires ev.Deliver? ==> MsgOk(w, x.voters, ev.msg) && ev.msg.to == x.id
    ensures By(w, w2, x.id) && Safe(w2) && Going(w2, x, React(n, ev))
  {
    match ev {
      case Ticks(_, rnd) => w2 := TickGoing(w, x, n, rnd);
      case Deliver(_, m, rnd) => w2 := StepGoing(w, x, n, m, rnd);
      case ClientWrite(_, cmd, rnd) => w2 := ProposeGoing(w, x, n, cmd, rnd);
      case ClientRead(_, rid) =>
        w2 := w;
        ByReflexive(w, x.id);
        ReadIndexGoing(w, x, n, rid);
      case _ =>
        w2 := w;
        ByReflexive(w, x.id);
    }
  }
}
