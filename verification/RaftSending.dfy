/** What a leader sends is true of its log, and what it counts is a quorum. */
module RaftSending {
  import opened Prelude
  import opened RaftTypes
  import opened RaftLogs
  import opened RaftCore
  import opened RaftHost
  import opened RaftProtocol
  import opened RaftActions
  import opened RaftSafety
  import opened RaftLeading
  import opened RaftCoupling

  /** Two nodes that differ only in timers, votes, hints, reads and progress. */
  ghost predicate SameCore(n: Node, n2: Node) {
    && n2.cfg == n.cfg && n2.log == n.log && n2.hs == n.hs && n2.commit == n.commit
    && n2.snapshot == n.snapshot && n2.votersBase == n.votersBase
    && n2.out.committed == n.out.committed && n2.out.hardState == n.out.hardState
    && n2.out.append == n.out.append && n2.out.snapshot == n.out.snapshot
  }

  lemma SameCoreGoing(w: World, x: Ctx, n: Node, n2: Node)
    requires Going(w, x, n) && SameCore(n, n2)
    requires RoleOk(w, n2) && SentOk(w, x.voters, n2.out.messages)
    ensures Going(w, x, n2)
  {}

  lemma SendGoing(w: World, x: Ctx, n: Node, to: NodeId, term: Term, body: Body)
    requires Going(w, x, n) && MsgOk(w, x.voters, Message(x.id, to, term, body))
    ensures Going(w, x, Send(n, to, term, body)) && SameCore(n, Send(n, to, term, body))
  {
    var n2 := Send(n, to, term, body);
    forall i | 0 <= i < |n2.out.messages| ensures MsgOk(w, x.voters, n2.out.messages[i]) {}
    SameCoreGoing(w, x, n, n2);
  }

  lemma {:induction false} SendEachGoing(w: World, x: Ctx, n: Node, peers: seq<NodeId>, term: Term, body: Body)
    requires Going(w, x, n)
    requires forall p :: p in peers && p != x.id ==> MsgOk(w, x.voters, Message(x.id, p, term, body))
    ensures Going(w, x, SendEach(n, peers, term, body))
    decreases |peers|
  {
    if peers != [] {
      if peers[0] == n.cfg.id {
        SendEachGoing(w, x, n, peers[1..], term, body);
      } else {
        SendGoing(w, x, n, peers[0], term, body);
        SendEachGoing(w, x, Send(n, peers[0], term, body), peers[1..], term, body);
      }
    }
  }

  // ------------------------------------------------------------- appends and snapshots

  lemma ProgressGoing(w: World, x: Ctx, n: Node, prs: map<NodeId, Progress>)
    requires Going(w, x, n) && n.role == Leader
    requires forall k :: k in prs ==> k in w.peers && k != x.id && prs[k].matched <= Ack(w.peers[k], n.hs.term)
    ensures Going(w, x, n.(prs := prs)) && SameCore(n, n.(prs := prs))
  {
    SameCoreGoing(w, x, n, n.(prs := prs));
  }

  lemma OneProgressGoing(w: World, x: Ctx, n: Node, peer: NodeId, pr: Progress)
    requires Going(w, x, n) && n.role == Leader && peer in n.prs
    requires pr.matched <= Ack(w.peers[peer], n.hs.term)
    ensures Going(w, x, WithProgress(n, peer, pr)) && SameCore(n, WithProgress(n, peer, pr))
  {
    var prs := n.prs[peer := pr];
    forall k | k in prs ensures k in w.peers && k != x.id && prs[k].matched <= Ack(w.peers[k], n.hs.term) {}
    ProgressGoing(w, x, n, prs);
  }

  lemma SliceOf(l: RaftLog, log: seq<Entry>, prev: Index, limit: nat)
    requires LogView(l, log) && l.snapIndex <= prev <= |log|
    ensures var es := l.Slice(prev + 1, limit); prev + |es| <= |log| && es == log[prev..prev + |es|]
  {
    var start := prev - l.snapIndex;
    var es := l.Slice(prev + 1, limit);
    if start < |l.entries| {
      var stop := Min(start + limit, |l.entries|);
      assert es == l.entries[start..stop] == log[l.snapIndex..][start..stop] == log[prev..prev + |es|];
    }
  }

  lemma LeaderAppendOk(w: World, x: Ctx, n: Node, prev: Index, es: seq<Entry>, limit: nat)
    requires Safe(w) && Going(w, x, n) && n.role == Leader
    requires n.log.TermOf(prev).Some?
    requires es == [] || es == n.log.Slice(prev + 1, limit)
    ensures AppendOk(w, n.hs.term, prev, n.log.TermOf(prev).value, es, n.commit)
  {
    var p := w.peers[x.id];
    assert PeerOk(w, p);
    LogViewFacts(n.log, p.log);
    SliceOf(n.log, p.log, prev, limit);
    assert p.log[prev..prev] == [];
  }

  lemma LeaderShippedOk(w: World, x: Ctx, n: Node)
    requires Safe(w) && Going(w, x, n) && n.role == Leader && n.snapshot.Some?
    ensures ShippedOk(w, x.voters, n.hs.term, n.snapshot.value)
  {
    var p := w.peers[x.id];
    assert PeerOk(w, p);
    CommittedShorter(w, p.log, p.commit, n.log.snapIndex, p.term);
  }

  /** What a leader may ship to a follower: a piece of its own log or its own snapshot. */
  ghost predicate Shipment(n: Node, peer: NodeId, m: Message) {
    && m.from == n.cfg.id && m.to == peer && m.term == n.hs.term
    && match m.body
       case InstallSnapshot(s) => n.snapshot == Some(s)
       case AppendEntries(prev, prevTerm, es, lc, ctx) =>
         && n.log.TermOf(prev) == Some(prevTerm)
         && (es == [] || es == n.log.Slice(prev + 1, n.cfg.maxBatch))
         && lc == n.commit && ctx == n.readCtx
       case _ => false
  }

  lemma SendAppendShape(n: Node, peer: NodeId) returns (sent: seq<Message>)
    ensures var r := SendAppend(n, peer);
            && SameCore(n, r) && r.role == n.role && r.prs.Keys == n.prs.Keys
            && r.readCtx == n.readCtx && r.pendingReads == n.pendingReads
            && r.out.readStates == n.out.readStates
            && (forall k :: k in n.prs ==> r.prs[k].matched == n.prs[k].matched)
            && (forall k :: k in n.prs ==> r.prs[k].ackedReadCtx == n.prs[k].ackedReadCtx)
            && r.out.messages == n.out.messages + sent
    ensures forall i :: 0 <= i < |sent| ==> Shipment(n, peer, sent[i])
  {
    sent := [];
    if peer in n.prs && !Deferred(n, n.prs[peer]) {
      var pr := n.prs[peer].(pendingSnapshot := false);
      if pr.next > n.log.snapIndex && n.log.TermOf(pr.next - 1).Some? {
        sent := [Message(n.cfg.id, peer, n.hs.term,
          AppendEntries(pr.next - 1, n.log.TermOf(pr.next - 1).value, Batch(n, pr), n.commit, n.readCtx))];
      } else if pr.next <= n.log.snapIndex && n.snapshot.Some? {
        sent := [Message(n.cfg.id, peer, n.hs.term, InstallSnapshot(n.snapshot.value))];
      }
    }
  }

  lemma ShipmentOk(w: World, x: Ctx, n: Node, peer: NodeId, m: Message)
    requires Safe(w) && Going(w, x, n) && n.role == Leader && Shipment(n, peer, m)
    ensures MsgOk(w, x.voters, m)
  {
    match m.body {
      case InstallSnapshot(_) => LeaderShippedOk(w, x, n);
      case AppendEntries(prev, _, es, _, _) => LeaderAppendOk(w, x, n, prev, es, n.cfg.maxBatch);
    }
  }

  lemma SendAppendGoing(w: World, x: Ctx, n: Node, peer: NodeId)
    requires Safe(w) && Going(w, x, n) && n.role == Leader
    ensures Going(w, x, SendAppend(n, peer)) && SameCore(n, SendAppend(n, peer))
    ensures SendAppend(n, peer).role == Leader
  {
    var sent := SendAppendShape(n, peer);
    ShippedGoing(w, x, n, SendAppend(n, peer), peer, sent);
  }

  lemma ShippedGoing(w: World, x: Ctx, n: Node, r: Node, peer: NodeId, sent: seq<Message>)
    requires Safe(w) && Going(w, x, n) && n.role == Leader
    requires SameCore(n, r) && r.role == n.role && r.prs.Keys == n.prs.Keys
    requires forall k :: k in n.prs ==> r.prs[k].matched == n.prs[k].matched
    requires r.out.messages == n.out.messages + sent
    requires forall i :: 0 <= i < |sent| ==> Shipment(n, peer, sent[i])
    ensures Going(w, x, r)
  {
    forall i | 0 <= i < |sent| ensures MsgOk(w, x.voters, sent[i]) {
      ShipmentOk(w, x, n, peer, sent[i]);
    }
    assert RoleOk(w, r) by { assert LeaderOk(w, n); }
    SameCoreGoing(w, x, n, r);
  }

  lemma {:induction false} SendAppendsGoing(w: World, x: Ctx, n: Node, peers: seq<NodeId>)
    requires Safe(w) && Going(w, x, n) && n.role == Leader
    ensures Going(w, x, SendAppends(n, peers)) && SameCore(n, SendAppends(n, peers))
    ensures SendAppends(n, peers).role == Leader
    decreases |peers|
  {
    if peers != [] {
      SendAppendGoing(w, x, n, peers[0]);
      SendAppendsGoing(w, x, SendAppend(n, peers[0]), peers[1..]);
    }
  }

  lemma BroadcastGoing(w: World, x: Ctx, n: Node)
    requires Safe(w) && Going(w, x, n) && n.role == Leader
    ensures Going(w, x, Broadcast(n)) && SameCore(n, Broadcast(n))
    ensures Broadcast(n).role == Leader
  {
    NodeVoters(w, x.voters, n);
    var m := SyncProgress(n);
    forall k | k in m.prs ensures k in w.peers && k != x.id && m.prs[k].matched <= Ack(w.peers[k], n.hs.term) {}
    ProgressGoing(w, x, n, m.prs);
    SendAppendsGoing(w, x, m, Ascending(m.prs.Keys));
  }

  // ------------------------------------------------------------- counting

  /** How many values are at least `c`. */
  function AtLeast(s: seq<nat>, c: nat): nat {
    if s == [] then 0 else (if s[0] >= c then 1 else 0) + AtLeast(s[1..], c)
  }

  lemma {:induction false} InsertCounts(x: nat, s: seq<nat>, c: nat)
    ensures AtLeast(InsertDesc(x, s), c) == AtLeast([x] + s, c)
    ensures |InsertDesc(x, s)| == |s| + 1
  {
    assert ([x] + s)[1..] == s;
    if s != [] && x < s[0] {
      InsertCounts(x, s[1..], c);
      assert ([x] + s[1..])[1..] == s[1..];
      assert ([s[0]] + InsertDesc(x, s[1..]))[1..] == InsertDesc(x, s[1..]);
    }
  }

  lemma {:induction false} SortCounts(s: seq<nat>, c: nat)
    ensures AtLeast(SortDesc(s), c) == AtLeast(s, c) && |SortDesc(s)| == |s|
  {
    if s != [] {
      SortCounts(s[1..], c);
      InsertCounts(s[0], SortDesc(s[1..]), c);
      assert ([s[0]] + SortDesc(s[1..]))[1..] == SortDesc(s[1..]);
    }
  }

  ghost predicate Descending(s: seq<nat>) { forall i, j :: 0 <= i < j < |s| ==> s[i] >= s[j] }

  lemma {:induction false} InsertDescends(x: nat, s: seq<nat>)
    requires Descending(s)
    ensures Descending(InsertDesc(x, s))
    ensures forall y :: y in InsertDesc(x, s) <==> y == x || y in s
  {
    if s != [] && x < s[0] {
      InsertDescends(x, s[1..]);
      var r := InsertDesc(x, s[1..]);
      assert forall y :: y in s <==> y == s[0] || y in s[1..];
      forall j | 0 <= j < |r| ensures s[0] >= r[j] { assert r[j] in r; }
    }
  }

  lemma {:induction false} SortDescends(s: seq<nat>)
    ensures Descending(SortDesc(s))
  {
    if s != [] {
      SortDescends(s[1..]);
      InsertDescends(s[0], SortDesc(s[1..]));
    }
  }

  lemma {:induction false} PrefixCounts(s: seq<nat>, q: nat, c: nat)
    requires q <= |s| && forall i :: 0 <= i < q ==> s[i] >= c
    ensures AtLeast(s, c) >= q
  {
    if q > 0 { PrefixCounts(s[1..], q - 1, c); }
  }

  /** The q-th largest value is reached by at least q of them. */
  lemma QthLargest(s: seq<nat>, q: nat)
    requires 0 < q <= |s|
    ensures |SortDesc(s)| == |s| && AtLeast(s, SortDesc(s)[q - 1]) >= q
  {
    SortCounts(s, 0);
    var c := SortDesc(s)[q - 1];
    SortDescends(s);
    PrefixCounts(SortDesc(s), q, c);
    SortCounts(s, c);
  }

  lemma {:induction false} CountIsSet(voters: seq<NodeId>, vals: seq<nat>, c: nat, q: set<NodeId>)
    requires |voters| == |vals| && forall i, j :: 0 <= i < j < |voters| ==> voters[i] != voters[j]
    requires forall v :: v in q <==> exists i :: 0 <= i < |voters| && voters[i] == v && vals[i] >= c
    ensures |q| == AtLeast(vals, c)
    decreases |voters|
  {
    if voters == [] {
      assert q == {};
    } else {
      var q2 := q - {voters[0]};
      forall v ensures v in q2 <==> exists i :: 0 <= i < |voters[1..]| && voters[1..][i] == v && vals[1..][i] >= c {
        if v in q2 {
          var i :| 0 <= i < |voters| && voters[i] == v && vals[i] >= c;
          assert voters[1..][i - 1] == v && vals[1..][i - 1] >= c;
        }
        if i :| 0 <= i < |voters[1..]| && voters[1..][i] == v && vals[1..][i] >= c {
          assert voters[i + 1] == v && vals[i + 1] >= c;
        }
      }
      CountIsSet(voters[1..], vals[1..], c, q2);
      if vals[0] >= c {
        assert voters[0] in q;
      } else {
        assert voters[0] !in q;
        assert q2 == q;
      }
    }
  }

  lemma {:induction false} SetOfVoters(voters: seq<NodeId>, v: set<NodeId>)
    requires forall i, j :: 0 <= i < j < |voters| ==> voters[i] != voters[j]
    requires forall n :: n in voters <==> n in v
    ensures |v| == |voters|
  {
    if voters == [] {
      assert v == {};
    } else {
      SetOfVoters(voters[1..], v - {voters[0]});
    }
  }

  /** The voters whose value reaches the q-th largest form a quorum. */
  lemma QthIsQuorum(voters: seq<NodeId>, keys: set<NodeId>, vals: seq<nat>) returns (q: set<NodeId>)
    requires voters != [] && |voters| == |vals|
    requires forall i, j :: 0 <= i < j < |voters| ==> voters[i] != voters[j]
    requires forall v :: v in voters <==> v in keys
    ensures |SortDesc(vals)| == |vals|
    ensures Quorum(keys, q)
    ensures forall v :: v in q ==> exists i :: 0 <= i < |voters| && voters[i] == v && vals[i] >= SortDesc(vals)[|voters| / 2]
  {
    QthLargest(vals, |voters| / 2 + 1);
    var c := SortDesc(vals)[|voters| / 2];
    q := set i | 0 <= i < |voters| && vals[i] >= c :: voters[i];
    CountIsSet(voters, vals, c, q);
    SetOfVoters(voters, keys);
  }
}
