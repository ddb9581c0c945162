/** Every message handler of the node, against the protocol. */
module RaftHandling {
  import opened Prelude
  import opened RaftTypes
  import opened RaftLogs
  import opened RaftCore
  import opened RaftHost
  import opened RaftProtocol
  import opened RaftActions
  import opened RaftSafety
  import opened RaftLeading
  import opened RaftCoupling
  import opened RaftSending
  import opened RaftDisk
  import opened RaftElecting
  import opened RaftCommitting
  import opened RaftFollowing

  // ------------------------------------------------------------- accepting entries

  /** The batch fits the follower: it comes from its leader and the follower shares the entry before it. */
  ghost predicate Fits(w: World, x: Ctx, n: Node, prev: Index, es: seq<Entry>) {
    && Safe(w) && Going(w, x, n) && n.role == Follower
    && n.hs.term in w.reigns
    && Piece(w.reigns[n.hs.term].log, prev, es)
    && n.log.snapIndex <= prev <= |w.peers[x.id].log|
    && TermAt(w.peers[x.id].log, prev) == TermAt(w.reigns[n.hs.term].log, prev)
  }

  lemma FitsLogs(w: World, x: Ctx, n: Node, prev: Index, es: seq<Entry>)
    requires Fits(w, x, n, prev, es)
    ensures LogOk(w.reigns, w.peers[x.id].log) && LogOk(w.reigns, w.reigns[n.hs.term].log)
    ensures LogView(n.log, w.peers[x.id].log) && n.commit == w.peers[x.id].commit
    ensures w.peers[x.id].term == n.hs.term
  {
    assert PeerOk(w, w.peers[x.id]) && ReignOk(w, n.hs.term);
  }

  lemma AbsorbView(w: World, x: Ctx, n: Node, prev: Index, es: seq<Entry>)
    requires Fits(w, x, n, prev, es)
    ensures LogView(Merged(n.log, es), Adopt(w, x.id, prev + |es|).peers[x.id].log)
    ensures Merged(n.log, es).snapIndex == n.log.snapIndex && Merged(n.log, es).snapTerm == n.log.snapTerm
  {
    FitsLogs(w, x, n, prev, es);
    MergedIsAdopted(w.reigns, n.log, w.peers[x.id].log, w.reigns[n.hs.term].log, prev, es);
  }

  lemma PieceContiguous(lead: seq<Entry>, prev: Index, es: seq<Entry>, i: nat)
    requires Numbered(lead) && Piece(lead, prev, es) && i <= |es|
    ensures Contiguous(es[i..], prev + i)
  {
    forall j | 0 <= j < |es[i..]| ensures es[i..][j].index == prev + i + 1 + j {
      assert es[i..][j] == es[i + j] == lead[prev + i + j];
    }
  }

  /** The logs are the same up to `k` and not one entry further. */
  ghost predicate PartAfter(a: seq<Entry>, b: seq<Entry>, k: Index) {
    var part := Agree(a, b, k) && !Agree(a, b, k + 1);
    part
  }

  /** Entry `i` of the batch is the first one that goes beyond what the two logs share. */
  ghost predicate Split(l: RaftLog, log: seq<Entry>, lead: seq<Entry>, prev: Index, es: seq<Entry>, i: nat) {
    var split := l.snapIndex <= prev + i <= l.LastIndex() && i < |es| && Contiguous(es[i..], prev + i) && es[i].index == prev + i + 1;
    split && PartAfter(log, lead, prev + i)
  }

  lemma SplitFacts(r: map<Term, Reign>, l: RaftLog, log: seq<Entry>, lead: seq<Entry>, prev: Index, es: seq<Entry>, i: nat)
    requires LogOk(r, log) && LogOk(r, lead) && LogView(l, log) && Piece(lead, prev, es)
    requires l.snapIndex <= prev <= |log| && TermAt(log, prev) == TermAt(lead, prev)
    requires i == FirstNew(l, es) && i < |es|
    ensures Split(l, log, lead, prev, es, i)
  {
    MatchedPrefix(r, l, log, lead, prev, es);
    NumberedLog(r, lead);
    PieceContiguous(lead, prev, es, i);
    assert es[i] == es[i..][0];
  }

  /** Where a fitting batch starts to differ from the log. */
  lemma MergedSplits(w: World, x: Ctx, n: Node, prev: Index, es: seq<Entry>)
    requires Fits(w, x, n, prev, es) && FirstNew(n.log, es) < |es|
    ensures Split(n.log, w.peers[x.id].log, w.reigns[n.hs.term].log, prev, es, FirstNew(n.log, es))
  {
    FitsLogs(w, x, n, prev, es);
    SplitFacts(w.reigns, n.log, w.peers[x.id].log, w.reigns[n.hs.term].log, prev, es, FirstNew(n.log, es));
  }

  lemma AbsorbMirrors(w: World, x: Ctx, n: Node, prev: Index, es: seq<Entry>)
    requires Fits(w, x, n, prev, es)
    ensures Mirrors(x.disk, Absorb(n, es))
  {
    var i := FirstNew(n.log, es);
    if i < |es| {
      MergedSplits(w, x, n, prev, es);
      MergedAt(n.log, es, i, prev + i);
      NodeContiguous(w, x, n);
      MergedMirrors(x.disk, n, es, i, prev + i);
    } else {
      FitsLogs(w, x, n, prev, es);
      MatchedPrefix(w.reigns, n.log, w.peers[x.id].log, w.reigns[n.hs.term].log, prev, es);
      NothingNewMirrors(x.disk, n, es);
    }
  }

  lemma AbsorbGoing(w: World, x: Ctx, n: Node, prev: Index, es: seq<Entry>, last: Index)
    requires Fits(w, x, n, prev, es) && last == prev + |es|
    ensures last <= |w.reigns[n.hs.term].log| && w.peers[x.id].term == n.hs.term
    ensures var w2 := Adopt(w, x.id, last);
            By(w, w2, x.id) && Safe(w2) && Going(w2, x, Absorb(n, es))
  {
    AbsorbView(w, x, n, prev, es);
    AbsorbMirrors(w, x, n, prev, es);
    FitsLogs(w, x, n, prev, es);
    AdoptedGoing(w, x, n, Absorb(n, es), last);
  }

  /** The node's assertions never fire on a batch from its leader (sections 5.3 and 5.4 of the Raft paper). */
  lemma FittingBatchSafe(w: World, x: Ctx, n: Node, prev: Index, es: seq<Entry>)
    requires Fits(w, x, n, prev, es)
    ensures !MergePanics(n, es)
  {
    var i := FirstNew(n.log, es);
    if i < |es| {
      MergedSplits(w, x, n, prev, es);
      FitsLogs(w, x, n, prev, es);
      CommitInOwnReign(w, x.id);
      SplitNoPanic(n, w.peers[x.id].log, w.reigns[n.hs.term].log, prev, es, i);
    }
  }

  lemma SplitNoPanic(n: Node, log: seq<Entry>, lead: seq<Entry>, prev: Index, es: seq<Entry>, i: nat)
    requires i == FirstNew(n.log, es) && Split(n.log, log, lead, prev, es, i) && Agree(log, lead, n.commit) && n.log.snapIndex <= n.commit
    ensures !MergePanics(n, es)
  {
    CommonUpTo(log, lead, prev + i, n.commit);
    NoPanicAt(n, es, i, prev + i);
  }

  lemma CommonUpTo(a: seq<Entry>, b: seq<Entry>, k: Index, c: Index)
    requires PartAfter(a, b, k) && Agree(a, b, c)
    ensures c <= k
  {
    if k < c { AgreeMonotone(a, b, k + 1, c); }
  }

  lemma NoPanicAt(n: Node, es: seq<Entry>, i: nat, k: Index)
    requires i == FirstNew(n.log, es) && i < |es| && es[i].index == k + 1 && Contiguous(es[i..], k)
    requires n.log.snapIndex <= k <= n.log.LastIndex() && n.log.snapIndex <= n.commit <= k
    ensures !MergePanics(n, es)
  {
    forall j | i <= j < |es| ensures es[j].index == k + 1 + (j - i) { assert es[j] == es[i..][j - i]; }
  }

  lemma CommitUpToGoing(w: World, x: Ctx, n: Node, target: Index, rnd: nat) returns (w2: World)
    requires Safe(w) && Going(w, x, n) && n.role == Follower
    requires target <= |w.peers[x.id].log| && Committed(w, w.peers[x.id].log, target, n.hs.term)
    ensures By(w, w2, x.id) && Safe(w2) && Going(w2, x, CommitUpTo(n, target, rnd))
    ensures w2.peers[x.id].acks == w.peers[x.id].acks && CommitUpTo(n, target, rnd).hs == n.hs
  {
    w2 := w;
    ByReflexive(w, x.id);
    if target > n.commit {
      FollowerAdvanceGoing(w, x, n, target, rnd);
      w2 := SetCommit(w, x.id, target);
    }
  }

  lemma SharedCommit(w: World, w2: World, lead: seq<Entry>, log2: seq<Entry>, k: Index, lc: Index, t: Term)
    requires Grows(w, w2) && Agree(log2, lead, k) && lc <= |lead| && Committed(w, lead, lc, t)
    ensures Min(lc, k) <= |log2| && Committed(w2, log2, Min(lc, k), t)
  {
    var c := Min(lc, k);
    CommittedShorter(w, lead, lc, c, t);
    AgreeMonotone(log2, lead, c, k);
    CommittedGrows(w, w2, lead, log2, c, t, t);
  }

  lemma AdoptedCommit(w: World, id: NodeId, t: Term, k: Index, lc: Index)
    requires Safe(w) && id in w.peers && w.peers[id].term == t && t in w.reigns
    requires k <= |w.reigns[t].log| && lc <= |w.reigns[t].log| && Committed(w, w.reigns[t].log, lc, t)
    ensures var w2, c := Adopt(w, id, k), Min(lc, k);
            && c <= |w2.peers[id].log| && Committed(w2, w2.peers[id].log, c, t)
            && Ack(w2.peers[id], t) >= k
  {
    var w2 := Adopt(w, id, k);
    AdoptBy(w, id, k);
    SharedCommit(w, w2, w.reigns[t].log, w2.peers[id].log, k, lc, t);
  }

  /** Commit and acknowledge what has just been adopted. */
  lemma CommitAndReplyGoing(w: World, x: Ctx, n: Node, from: NodeId, k: Index, target: Index, ctx: nat, rnd: nat)
    returns (w2: World)
    requires Safe(w) && Going(w, x, n) && n.role == Follower
    requires target <= |w.peers[x.id].log| && Committed(w, w.peers[x.id].log, target, n.hs.term)
    requires Ack(w.peers[x.id], n.hs.term) >= k
    ensures By(w, w2, x.id) && Safe(w2)
    ensures Going(w2, x, Reply(CommitUpTo(n, target, rnd), from, true, k, 0, ctx))
  {
    w2 := CommitUpToGoing(w, x, n, target, rnd);
    AckSendGoing(w2, x, CommitUpTo(n, target, rnd), from, k, ctx);
  }

  lemma AckSendGoing(w: World, x: Ctx, n: Node, from: NodeId, k: Index, ctx: nat)
    requires Going(w, x, n) && Ack(w.peers[x.id], n.hs.term) >= k
    ensures Going(w, x, Reply(n, from, true, k, 0, ctx))
  {
    SendGoing(w, x, n, from, n.hs.term, AppendEntriesResp(true, k, 0, ctx));
  }

  lemma AbsorbStep(w: World, x: Ctx, n: Node, prev: Index, es: seq<Entry>, last: Index, lc: Index) returns (w1: World)
    requires Fits(w, x, n, prev, es) && lc <= |w.reigns[n.hs.term].log| && last == prev + |es|
    requires Committed(w, w.reigns[n.hs.term].log, lc, n.hs.term)
    ensures By(w, w1, x.id) && Safe(w1) && Going(w1, x, Absorb(n, es))
    ensures Min(lc, last) <= |w1.peers[x.id].log|
    ensures Committed(w1, w1.peers[x.id].log, Min(lc, last), n.hs.term)
    ensures Ack(w1.peers[x.id], n.hs.term) >= last
  {
    w1 := Adopt(w, x.id, last);
    AdoptedCommit(w, x.id, n.hs.term, last, lc);
    AbsorbGoing(w, x, n, prev, es, last);
  }

  lemma AcceptGoing(w: World, x: Ctx, n: Node, from: NodeId, prev: Index, es: seq<Entry>,
                    lc: Index, ctx: nat, rnd: nat) returns (w2: World)
    requires Fits(w, x, n, prev, es) && lc <= |w.reigns[n.hs.term].log|
    requires Committed(w, w.reigns[n.hs.term].log, lc, n.hs.term)
    ensures By(w, w2, x.id) && Safe(w2) && Going(w2, x, AcceptEntries(n, from, prev, es, lc, ctx, rnd))
  {
    var last := prev + |es|;
    var w1 := AbsorbStep(w, x, n, prev, es, last, lc);
    w2 := AcceptAfter(w1, x, n, from, prev, es, last, lc, ctx, rnd);
    ByTransitive(w, w1, w2, x.id);
  }

  lemma AcceptAfter(w: World, x: Ctx, n: Node, from: NodeId, prev: Index, es: seq<Entry>, last: Index,
                    lc: Index, ctx: nat, rnd: nat) returns (w2: World)
    requires Safe(w) && Going(w, x, Absorb(n, es)) && n.role == Follower && last == prev + |es|
    requires Min(lc, last) <= |w.peers[x.id].log|
    requires Committed(w, w.peers[x.id].log, Min(lc, last), n.hs.term)
    requires Ack(w.peers[x.id], n.hs.term) >= last
    ensures By(w, w2, x.id) && Safe(w2) && Going(w2, x, AcceptEntries(n, from, prev, es, lc, ctx, rnd))
  {
    var m := Absorb(n, es);
    assert AcceptEntries(n, from, prev, es, lc, ctx, rnd) == Reply(CommitUpTo(m, Min(lc, last), rnd), from, true, last, 0, ctx);
    w2 := CommitAndReplyGoing(w, x, m, from, last, Min(lc, last), ctx, rnd);
  }

  // ------------------------------------------------------------- AppendEntries

  lemma RefuseGoing(w: World, x: Ctx, n: Node, from: NodeId, conflict: Index, ctx: nat)
    requires Going(w, x, n)
    ensures Going(w, x, Reply(n, from, false, 0, conflict, ctx))
  {
    SendGoing(w, x, n, from, n.hs.term, AppendEntriesResp(false, 0, conflict, ctx));
  }

  lemma AppendAtGoing(w: World, x: Ctx, n: Node, from: NodeId, prev: Index, prevTerm: Term, es: seq<Entry>,
                      lc: Index, ctx: nat, rnd: nat) returns (w2: World)
    requires Safe(w) && Going(w, x, n) && n.role == Follower && n.log.snapIndex <= prev
    requires AppendOk(w, n.hs.term, prev, prevTerm, es, lc)
    ensures By(w, w2, x.id) && Safe(w2) && Going(w2, x, AppendAt(n, from, prev, prevTerm, es, lc, ctx, rnd))
  {
    LogViewFacts(n.log, w.peers[x.id].log);
    if n.log.TermOf(prev) == Some(prevTerm) {
      w2 := AcceptGoing(w, x, n, from, prev, es, lc, ctx, rnd);
    } else {
      w2 := w;
      ByReflexive(w, x.id);
      if n.log.TermOf(prev).None? {
        RefuseGoing(w, x, n, from, n.log.LastIndex() + 1, ctx);
      } else {
        RefuseGoing(w, x, n, from, ConflictHint(n.log, prev, n.log.TermOf(prev).value), ctx);
      }
    }
  }

  lemma HeardGoing(w: World, x: Ctx, n: Node, from: NodeId)
    requires Going(w, x, n)
    ensures Going(w, x, Heard(n, from))
  {
    SameCoreGoing(w, x, n, Heard(n, from));
  }

  /** Everything at or below the follower's snapshot is already shared with its leader. */
  lemma CommitShared(w: World, x: Ctx, n: Node, k: Index)
    requires Safe(w) && Going(w, x, n) && n.hs.term in w.reigns && k <= n.commit
    ensures Agree(w.peers[x.id].log, w.reigns[n.hs.term].log, k)
  {
    CommitInOwnReign(w, x.id);
    AgreeMonotone(w.peers[x.id].log, w.reigns[n.hs.term].log, k, n.commit);
  }

  lemma SkipCovered(w: World, x: Ctx, n: Node, prev: Index, prevTerm: Term, es: seq<Entry>, lc: Index)
    requires Safe(w) && Going(w, x, n) && AppendOk(w, n.hs.term, prev, prevTerm, es, lc)
    requires prev < n.log.snapIndex < prev + |es|
    ensures AppendOk(w, n.hs.term, n.log.snapIndex, n.log.snapTerm, es[n.log.snapIndex - prev..], lc)
  {
    var s, lead := n.log.snapIndex, w.reigns[n.hs.term].log;
    CommitShared(w, x, n, s);
    TermAgrees(w.peers[x.id].log, lead, s, s);
    assert es[s - prev..] == lead[s..prev + |es|];
  }

  lemma CoveredGoing(w: World, x: Ctx, n: Node, from: NodeId, ctx: nat) returns (w2: World)
    requires Safe(w) && Going(w, x, n) && n.role == Follower && n.hs.term in w.reigns
    ensures By(w, w2, x.id) && Safe(w2) && Going(w2, x, Reply(n, from, true, n.log.snapIndex, 0, ctx))
  {
    CommitShared(w, x, n, n.log.snapIndex);
    AckGoing(w, x, n, n.log.snapIndex);
    w2 := Adopt(w, x.id, n.log.snapIndex);
    SendGoing(w2, x, n, from, n.hs.term, AppendEntriesResp(true, n.log.snapIndex, 0, ctx));
  }

  lemma HandleAppendGoing(w: World, x: Ctx, n0: Node, from: NodeId, prev: Index, prevTerm: Term, es: seq<Entry>,
                          lc: Index, ctx: nat, rnd: nat) returns (w2: World)
    requires Safe(w) && Going(w, x, n0) && AppendOk(w, n0.hs.term, prev, prevTerm, es, lc)
    ensures By(w, w2, x.id) && Safe(w2)
    ensures Going(w2, x, HandleAppend(n0, from, prev, prevTerm, es, lc, ctx, rnd))
  {
    var n := Heard(n0, from);
    HeardGoing(w, x, n0, from);
    var snap := n.log.snapIndex;
    if prev >= snap {
      w2 := AppendAtGoing(w, x, n, from, prev, prevTerm, es, lc, ctx, rnd);
    } else if snap - prev >= |es| {
      w2 := CoveredGoing(w, x, n, from, ctx);
    } else {
      SkipCovered(w, x, n, prev, prevTerm, es, lc);
      w2 := AppendAtGoing(w, x, n, from, snap, n.log.snapTerm, es[snap - prev..], lc, ctx, rnd);
    }
  }

  /** The overwrite assertion and the truncate-into-snapshot panic are unreachable for messages of a leader. */
  lemma HandleAppendSafe(w: World, x: Ctx, n: Node, prev: Index, prevTerm: Term, es: seq<Entry>, lc: Index)
    requires Safe(w) && Going(w, x, n) && AppendOk(w, n.hs.term, prev, prevTerm, es, lc)
    ensures !AppendPanics(n, prev, prevTerm, es)
  {
    var snap := n.log.snapIndex;
    if prev >= snap {
      if n.log.TermOf(prev) == Some(prevTerm) { BatchAtSafe(w, x, n, prev, prevTerm, es, lc); }
    } else if snap - prev < |es| {
      SkipCovered(w, x, n, prev, prevTerm, es, lc);
      BatchAtSafe(w, x, n, snap, n.log.snapTerm, es[snap - prev..], lc);
    }
  }

  lemma BatchAtSafe(w: World, x: Ctx, n: Node, prev: Index, prevTerm: Term, es: seq<Entry>, lc: Index)
    requires Safe(w) && Going(w, x, n) && AppendOk(w, n.hs.term, prev, prevTerm, es, lc)
    requires n.log.snapIndex <= prev && n.log.TermOf(prev) == Some(prevTerm)
    ensures !MergePanics(n, es)
  {
    HeardGoing(w, x, n, x.id);
    LogViewFacts(n.log, w.peers[x.id].log);
    FittingBatchSafe(w, x, Heard(n, x.id), prev, es);
  }

  // ------------------------------------------------------------- InstallSnapshot

  lemma SnapAckGoing(w: World, x: Ctx, n: Node, from: NodeId, k: Index)
    requires Going(w, x, n) && Ack(w.peers[x.id], n.hs.term) >= k
    ensures Going(w, x, Send(n, from, n.hs.term, InstallSnapshotResp(k)))
  {
    SendGoing(w, x, n, from, n.hs.term, InstallSnapshotResp(k));
  }

  /** A snapshot at or below the commit index: everything committed here is shared with the leader. */
  lemma StaleSnapshotGoing(w: World, x: Ctx, n: Node, from: NodeId) returns (w2: World)
    requires Safe(w) && Going(w, x, n) && n.role == Follower && n.hs.term in w.reigns
    ensures By(w, w2, x.id) && Safe(w2) && Going(w2, x, Send(n, from, n.hs.term, InstallSnapshotResp(n.commit)))
  {
    CommitShared(w, x, n, n.commit);
    AckGoing(w, x, n, n.commit);
    w2 := Adopt(w, x.id, n.commit);
    SnapAckGoing(w2, x, n, from, n.commit);
  }

  /** A snapshot of a prefix of the log: the log stays, and the prefix is shared with the leader. */
  lemma PrefixShared(w: World, x: Ctx, n: Node, s: Snapshot)
    requires Safe(w) && Going(w, x, n) && ShippedOk(w, x.voters, n.hs.term, s)
    requires n.commit < s.lastIndex && n.log.TermOf(s.lastIndex) == Some(s.lastTerm)
    ensures Agree(w.peers[x.id].log, w.reigns[n.hs.term].log, s.lastIndex)
  {
    assert PeerOk(w, w.peers[x.id]) && ReignOk(w, n.hs.term);
    LogViewFacts(n.log, w.peers[x.id].log);
    LogMatching(w.reigns, w.peers[x.id].log, w.reigns[n.hs.term].log, s.lastIndex);
  }

  lemma PrefixSnapshotGoing(w: World, x: Ctx, n: Node, from: NodeId, s: Snapshot, rnd: nat) returns (w2: World)
    requires Safe(w) && Going(w, x, n) && n.role == Follower && ShippedOk(w, x.voters, n.hs.term, s)
    requires n.commit < s.lastIndex && n.log.TermOf(s.lastIndex) == Some(s.lastTerm)
    ensures By(w, w2, x.id) && Safe(w2)
    ensures var m := AdvanceCommit(n, s.lastIndex, rnd);
            Going(w2, x, Send(m, from, m.hs.term, InstallSnapshotResp(s.lastIndex)))
  {
    var k := s.lastIndex;
    PrefixShared(w, x, n, s);
    AckGoing(w, x, n, k);
    var w1 := Adopt(w, x.id, k);
    SharedCommit(w, w1, w.reigns[n.hs.term].log, w1.peers[x.id].log, k, k, n.hs.term);
    w2 := AdvanceAndAck(w1, x, n, from, k, rnd);
    ByTransitive(w, w1, w2, x.id);
  }

  lemma AdvanceAndAck(w: World, x: Ctx, n: Node, from: NodeId, k: Index, rnd: nat) returns (w2: World)
    requires Safe(w) && Going(w, x, n) && n.role == Follower
    requires n.commit <= k <= |w.peers[x.id].log| && Committed(w, w.peers[x.id].log, k, n.hs.term)
    requires Ack(w.peers[x.id], n.hs.term) >= k
    ensures By(w, w2, x.id) && Safe(w2)
    ensures var m := AdvanceCommit(n, k, rnd); Going(w2, x, Send(m, from, m.hs.term, InstallSnapshotResp(k)))
  {
    FollowerAdvanceGoing(w, x, n, k, rnd);
    w2 := SetCommit(w, x.id, k);
    SnapAckGoing(w2, x, AdvanceCommit(n, k, rnd), from, k);
  }

  /** Any other snapshot goes beyond what the log shares with the leader, so adopting it replaces the log. */
  lemma ResetReplaces(w: World, x: Ctx, n: Node, s: Snapshot)
    requires Safe(w) && Going(w, x, n) && ShippedOk(w, x.voters, n.hs.term, s)
    requires n.commit < s.lastIndex && n.log.TermOf(s.lastIndex) != Some(s.lastTerm)
    ensures Adopt(w, x.id, s.lastIndex).peers[x.id].log == w.reigns[n.hs.term].log[..s.lastIndex]
  {
    var log, lead, k := w.peers[x.id].log, w.reigns[n.hs.term].log, s.lastIndex;
    LogViewFacts(n.log, log);
    if Agree(log, lead, k) { TermAgrees(log, lead, k, k); }
  }

  function ResetTo(n: Node, s: Snapshot): Node {
    n.(log := n.log.ResetToSnapshot(s.lastIndex, s.lastTerm), commit := s.lastIndex,
       votersBase := s.voters, snapshot := Some(s), out := n.out.(snapshot := Some(s)))
  }

  lemma ResetOk(w: World, x: Ctx, n: Node, s: Snapshot, log: seq<Entry>)
    requires Going(w, x, n) && n.out.append == [] && n.out.committed == []
    requires |log| == s.lastIndex > 0 && s == Snapshot(|log|, TermAt(log, |log|), x.voters, Replay(log))
    ensures var m := ResetTo(n, s);
            && LogView(m.log, log) && SnapshotOf(m, log, x.voters)
            && Mirrors(x.disk, m) && Emitted(x.base, m, log)
  {
    assert log[..|log|] == log;
  }

  lemma ResetSteps(w: World, x: Ctx, n: Node, s: Snapshot) returns (w2: World)
    requires Safe(w) && Going(w, x, n) && n.role == Follower && ShippedOk(w, x.voters, n.hs.term, s)
    requires n.commit < s.lastIndex && n.log.TermOf(s.lastIndex) != Some(s.lastTerm)
    ensures By(w, w2, x.id) && Safe(w2) && w2.reigns == w.reigns
    ensures w2.peers[x.id].log == w.reigns[n.hs.term].log[..s.lastIndex]
    ensures w2.peers[x.id].term == n.hs.term && w2.peers[x.id].vote == n.hs.votedFor
    ensures w2.peers[x.id].commit == s.lastIndex && Ack(w2.peers[x.id], n.hs.term) >= s.lastIndex
  {
    var k := s.lastIndex;
    ResetReplaces(w, x, n, s);
    AdoptBy(w, x.id, k);
    var w1 := Adopt(w, x.id, k);
    SharedCommit(w, w1, w.reigns[n.hs.term].log, w1.peers[x.id].log, k, k, n.hs.term);
    SetCommitBy(w1, x.id, k);
    w2 := SetCommit(w1, x.id, k);
    ByTransitive(w, w1, w2, x.id);
  }

  lemma ResetGoing(w: World, x: Ctx, n: Node, s: Snapshot) returns (w2: World)
    requires Safe(w) && Going(w, x, n) && n.role == Follower && ShippedOk(w, x.voters, n.hs.term, s)
    requires n.commit < s.lastIndex && n.log.TermOf(s.lastIndex) != Some(s.lastTerm)
    requires n.out.append == [] && n.out.committed == []
    ensures By(w, w2, x.id) && Safe(w2) && Going(w2, x, ResetTo(n, s))
    ensures Ack(w2.peers[x.id], n.hs.term) >= s.lastIndex
  {
    w2 := ResetSteps(w, x, n, s);
    ResetOk(w, x, n, s, w2.peers[x.id].log);
    assert Plain(w2);
    MovedGoing(w, w2, x, n, ResetTo(n, s));
  }

  lemma HandleSnapshotGoing(w: World, x: Ctx, n0: Node, from: NodeId, s: Snapshot, rnd: nat) returns (w2: World)
    requires Safe(w) && Going(w, x, n0) && ShippedOk(w, x.voters, n0.hs.term, s)
    requires n0.out.append == [] && n0.out.committed == []
    ensures By(w, w2, x.id) && Safe(w2) && Going(w2, x, HandleSnapshot(n0, from, s, rnd))
  {
    var n := Heard(n0, from);
    HeardGoing(w, x, n0, from);
    if s.lastIndex <= n.commit {
      w2 := StaleSnapshotGoing(w, x, n, from);
    } else if n.log.TermOf(s.lastIndex) == Some(s.lastTerm) {
      w2 := PrefixSnapshotGoing(w, x, n, from, s, rnd);
    } else {
      w2 := ResetGoing(w, x, n, s);
      SnapAckGoing(w2, x, ResetTo(n, s), from, s.lastIndex);
    }
  }

  // ------------------------------------------------------------- responses to a leader

  lemma ProcessReadAcksShape(n: Node)
    ensures SameCore(n, ProcessReadAcks(n)) && ProcessReadAcks(n).role == n.role && ProcessReadAcks(n).prs == n.prs
    ensures ProcessReadAcks(n).out.messages == n.out.messages
  {}

  lemma ProcessReadAcksGoing(w: World, x: Ctx, n: Node)
    requires Going(w, x, n) && n.role == Leader
    ensures Going(w, x, ProcessReadAcks(n)) && ProcessReadAcks(n).role == Leader
  {
    ProcessReadAcksShape(n);
    SameCoreGoing(w, x, n, ProcessReadAcks(n));
  }

  lemma ReplicatedGoing(w: World, x: Ctx, n: Node, from: NodeId, pr: Progress, rnd: nat) returns (w2: World)
    requires Safe(w) && Going(w, x, n) && n.role == Leader && from in n.prs
    requires pr.matched <= Ack(w.peers[from], n.hs.term)
    ensures By(w, w2, x.id) && Safe(w2)
    ensures Going(w2, x, Replicated(n, from, pr, rnd)) && Replicated(n, from, pr, rnd).role == Leader
  {
    OneProgressGoing(w, x, n, from, pr);
    w2 := MaybeAdvanceGoing(w, x, WithProgress(n, from, pr), rnd);
    ProcessReadAcksGoing(w2, x, MaybeAdvance(WithProgress(n, from, pr), rnd));
  }

  lemma KeepSendingGoing(w: World, x: Ctx, n: Node, from: NodeId, last: Index)
    requires Safe(w) && Going(w, x, n) && n.role == Leader
    ensures Going(w, x, KeepSending(n, from, last))
  {
    SendAppendGoing(w, x, n, from);
  }

  lemma SuccessGoing(w: World, x: Ctx, n: Node, from: NodeId, mi: Index, conflict: Index, ctx: nat, rnd: nat)
    returns (w2: World)
    requires Safe(w) && Going(w, x, n) && n.role == Leader && from in n.prs && from in w.peers
    requires mi <= Ack(w.peers[from], n.hs.term)
    ensures By(w, w2, x.id) && Safe(w2) && Going(w2, x, HandleAppendResp(n, from, true, mi, conflict, ctx, rnd))
  {
    assert LeaderOk(w, n);
    var last, pr := n.log.LastIndex(), Advanced(Credited(n.prs[from], ctx), mi);
    w2 := ReplicatedGoing(w, x, n, from, pr, rnd);
    KeepSendingGoing(w2, x, Replicated(n, from, pr, rnd), from, last);
    assert HandleAppendResp(n, from, true, mi, conflict, ctx, rnd) == KeepSending(Replicated(n, from, pr, rnd), from, last);
  }

  lemma RejectedGoing(w: World, x: Ctx, n: Node, from: NodeId, mi: Index, conflict: Index, ctx: nat, rnd: nat)
    requires Safe(w) && Going(w, x, n) && n.role == Leader && from in n.prs && from in w.peers
    ensures Going(w, x, HandleAppendResp(n, from, false, mi, conflict, ctx, rnd))
  {
    assert LeaderOk(w, n);
    var last, pr := n.log.LastIndex(), Credited(n.prs[from], ctx);
    var pr2 := if conflict > 0 then pr.(next := Min(Max(conflict, 1), last + 1), inflight := 0) else pr;
    OneProgressGoing(w, x, n, from, pr2);
    SendAppendGoing(w, x, WithProgress(n, from, pr2), from);
    RejectedIs(n, from, mi, conflict, ctx, rnd, pr2);
  }

  lemma RejectedIs(n: Node, from: NodeId, mi: Index, conflict: Index, ctx: nat, rnd: nat, pr: Progress)
    requires n.role == Leader && from in n.prs
    requires pr == if conflict > 0 then Credited(n.prs[from], ctx).(next := Min(Max(conflict, 1), n.log.LastIndex() + 1), inflight := 0)
                   else Credited(n.prs[from], ctx)
    ensures HandleAppendResp(n, from, false, mi, conflict, ctx, rnd) ==
            if conflict > 0 then SendAppend(WithProgress(n, from, pr), from) else WithProgress(n, from, pr)
  {}

  lemma HandleAppendRespGoing(w: World, x: Ctx, n: Node, from: NodeId, success: bool, mi: Index,
                              conflict: Index, ctx: nat, rnd: nat) returns (w2: World)
    requires Safe(w) && Going(w, x, n) && from in w.peers
    requires success ==> mi <= Ack(w.peers[from], n.hs.term)
    ensures By(w, w2, x.id) && Safe(w2) && Going(w2, x, HandleAppendResp(n, from, success, mi, conflict, ctx, rnd))
  {
    w2 := w;
    ByReflexive(w, x.id);
    if n.role == Leader && from in n.prs {
      if success {
        w2 := SuccessGoing(w, x, n, from, mi, conflict, ctx, rnd);
      } else {
        RejectedGoing(w, x, n, from, mi, conflict, ctx, rnd);
      }
    }
  }

  lemma HandleSnapshotRespGoing(w: World, x: Ctx, n: Node, from: NodeId, li: Index, rnd: nat) returns (w2: World)
    requires Safe(w) && Going(w, x, n) && from in w.peers && li <= Ack(w.peers[from], n.hs.term)
    ensures By(w, w2, x.id) && Safe(w2) && Going(w2, x, HandleSnapshotResp(n, from, li, rnd))
  {
    w2 := w;
    ByReflexive(w, x.id);
    if n.role == Leader && from in n.prs {
      assert LeaderOk(w, n);
      var pr := n.prs[from];
      var pr2 := pr.(pendingSnapshot := false, matched := Max(pr.matched, li),
                     next := Max(pr.next, li + 1), inflight := 0);
      OneProgressGoing(w, x, n, from, pr2);
      w2 := MaybeAdvanceGoing(w, x, WithProgress(n, from, pr2), rnd);
      SendAppendGoing(w2, x, MaybeAdvance(WithProgress(n, from, pr2), rnd), from);
    }
  }
}
