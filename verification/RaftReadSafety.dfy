/** ReadIndex over whole runs: a released read is current unless its own leader was credited with an answer to an
    older term's append that was already under way when the read was registered and names its round or a later one
    (crates/raft/src/node.rs:407-463, 612-638, 872-887). */
module RaftReadSafety {
  import opened Prelude
  import opened RaftTypes
  import opened RaftLogs
  import opened RaftCore
  import opened RaftHost
  import opened RaftProtocol
  import opened RaftActions
  import opened RaftSafety
  import opened RaftLeading
  import opened RaftCoupling
  import opened RaftClusterProof
  import opened RaftTheorems
  import opened RaftReads
  import RaftSending
  import Kvsm

  // ------------------------------------------------------------- states of a run

  predicate LeaderIn(c: Cluster, v: NodeId, n: Node) {
    v in c.hosts && c.hosts[v].raft == Some(n) && n.role == Leader
  }

  function TermIn(c: Cluster, v: NodeId): Term
    requires v in c.hosts && v in c.cfgs
  {
    NodeAt(c, v).hs.term
  }

  lemma StepConfig(c: Cluster, ev: Event, compact: bool, c2: Cluster)
    requires Steps(c, ev, compact, c2)
    ensures c2.cfgs == c.cfgs && c2.voters == c.voters && c2.hosts.Keys == c.hosts.Keys
  {
    assert c2.hosts.Keys == c.hosts.Keys + {ev.id};
  }

  lemma {:induction false} ConfigFixed(cs: seq<Cluster>, evs: seq<Event>, compacts: seq<bool>, k: nat)
    requires Run(cs, evs, compacts) && k <= |evs|
    ensures cs[k].cfgs == cs[0].cfgs && cs[k].voters == cs[0].voters && cs[k].hosts.Keys == cs[0].cfgs.Keys
    ensures WellConfigured(cs[k].voters, cs[k].cfgs)
    decreases k
  {
    if k > 0 {
      ConfigFixed(cs, evs, compacts, k - 1);
      StepConfig(cs[k - 1], evs[k - 1], compacts[k - 1], cs[k]);
    }
  }

  lemma TermsGrow(cs: seq<Cluster>, evs: seq<Event>, compacts: seq<bool>, i: nat, j: nat, v: NodeId)
    requires Run(cs, evs, compacts) && i <= j <= |evs|
    requires v in cs[i].hosts && v in cs[i].cfgs && v in cs[j].hosts && v in cs[j].cfgs
    ensures TermIn(cs[i], v) <= TermIn(cs[j], v)
  {
    var w, w2 := TwoNodes(cs, evs, compacts, i, v, j, v);
    assert PeerGrows(w.peers[v], w2.peers[v]);
  }

  /** The acting node after the event, with its output drained and perhaps its log compacted. */
  lemma EventEffect(c: Cluster, ev: Event, compact: bool) returns (m: Node)
    requires Enabled(c, ev) && ev.id in c.cfgs && !ev.Crash? && !ev.Restart?
    ensures var r := React(c.hosts[ev.id].raft.value, ev);
            && Next(c, ev, compact).hosts == c.hosts[ev.id := Next(c, ev, compact).hosts[ev.id]]
            && Next(c, ev, compact).hosts[ev.id].raft == Some(m) && SameReads(r, m)
            && Next(c, ev, compact).net == c.net + (set x | x in r.out.messages)
  {
    m := Next(c, ev, compact).hosts[ev.id].raft.value;
  }

  predicate SameReads(n: Node, m: Node) {
    && m.cfg == n.cfg && m.role == n.role && m.hs == n.hs && m.readCtx == n.readCtx
    && m.pendingReads == n.pendingReads && m.prs == n.prs
  }

  // ------------------------------------------------------------- the invariant

  ghost predicate EchoesSourced(net: set<Message>) {
    forall m :: m in net && Genuine(m) ==>
      exists a :: a in net && a.body.AppendEntries? && a.term == m.term && a.body.readCtx == m.body.readCtx
  }

  ghost predicate RoundsBound(c: Cluster) {
    forall v, n, a :: LeaderIn(c, v, n) && a in c.net && a.body.AppendEntries? && a.term == n.hs.term ==> a.body.readCtx <= n.readCtx
  }

  /** The event at state `c` registers the read `p` with the leader `v` of term `t`. */
  ghost predicate Registered(c: Cluster, ev: Event, v: NodeId, t: Term, p: PendingRead) {
    && v in c.hosts && c.hosts[v].raft.Some? && ev.id == v
    && c.hosts[v].raft.value.hs.term == t && NewRead(c.hosts[v].raft.value, ev, p)
  }

  ghost predicate WasRegistered(cs: seq<Cluster>, evs: seq<Event>, k: nat, v: NodeId, t: Term, p: PendingRead)
    requires k < |cs| == |evs| + 1
  {
    exists r: nat :: r < k && Registered(cs[r], evs[r], v, t, p)
  }

  ghost predicate PendingOk(cs: seq<Cluster>, evs: seq<Event>, k: nat)
    requires k < |cs| == |evs| + 1
  {
    forall v, n, p :: LeaderIn(cs[k], v, n) && p in n.pendingReads ==> WasRegistered(cs, evs, k, v, n.hs.term, p)
  }

  /** What holds in every run: echoes answer appends, no append is ahead of its leader, every pending read was registered. */
  ghost predicate ReadInv(cs: seq<Cluster>, evs: seq<Event>, k: nat)
    requires k < |cs| == |evs| + 1
  {
    EchoesSourced(cs[k].net) && RoundsBound(cs[k]) && PendingOk(cs, evs, k)
  }

  // ------------------------------------------------------------- the condition on a read

  predicate LeadsTerm(c: Cluster, x: NodeId, t: Term) {
    x in c.hosts && c.hosts[x].raft.Some? && c.hosts[x].raft.value.role == Leader && c.hosts[x].raft.value.hs.term == t
  }

  /** An answer to an older term's append, for round `ctx` or later, reaches `x` while it leads the answer's own term `t`. */
  predicate Echoed(c: Cluster, ev: Event, x: NodeId, t: Term, ctx: nat) {
    ev.Deliver? && ev.id == x && StaleEcho(ev.msg) && ev.msg.term == t && ev.msg.body.readCtx >= ctx && LeadsTerm(c, x, t)
  }

  /** No such answer that was under way at state `r` is delivered up to step `e`. */
  ghost predicate Undisturbed(cs: seq<Cluster>, evs: seq<Event>, r: nat, e: nat, x: NodeId, t: Term, ctx: nat)
    requires r <= e < |evs| && |cs| == |evs| + 1
  {
    forall i :: 0 <= i <= e && Echoed(cs[i], evs[i], x, t, ctx) ==> evs[i].msg !in cs[r].net
  }

  // ------------------------------------------------------------- a new leader finds no appends of its term

  lemma NoAppendsYet(c: Cluster, w: World, x: NodeId, c2: Cluster, w2: World, n: Node, m: Node, a: Message)
    requires Good(c, w) && Good(c2, w2) && Grows(w, w2) && x in c.hosts && c.hosts[x].raft == Some(n)
    requires LeaderIn(c2, x, m) && NewReign(n, m) && a in c.net && a.body.AppendEntries?
    ensures a.term != m.hs.term
  {
    GoodSafe(c, w);
    GoodKnown(c2, w2, x);
    assert HostOk(w, c.voters, c.cfgs[x], c.hosts[x]);
    assert NodeOk(w, c.voters, n);
    assert NetOk(w, c);
    assert MsgOk(w, c.voters, a);
    NewTermUnled(w, w2, x, n, m.hs.term);
  }

  lemma NewTermUnled(w: World, w2: World, x: NodeId, n: Node, t: Term)
    requires Safe(w) && Grows(w, w2) && x in w.peers && n.cfg.id == x && n.hs.term == w.peers[x].term
    requires t in w2.reigns && w2.reigns[t].leader == x
    requires n.hs.term < t || (n.role == Candidate && n.hs.term == t && CandidateOk(w, n))
    ensures t !in w.reigns
  {
    assert ReignOk(w, t) && RunOk(w, w.peers[x], t);
  }

  lemma LeadersSame(c: Cluster, w: World, a: NodeId, m: Node, b: NodeId, n: Node)
    requires Good(c, w) && LeaderIn(c, a, m) && LeaderIn(c, b, n) && m.hs.term == n.hs.term
    ensures a == b
  {
    GoodKnown(c, w, a);
    GoodKnown(c, w, b);
  }

  // ------------------------------------------------------------- one step keeps the invariant

  lemma EventOutcome(c: Cluster, w: World, ev: Event)
    requires Good(c, w) && Enabled(c, ev) && !ev.Crash? && !ev.Restart?
    ensures var n := c.hosts[ev.id].raft.value; Outcome(n, ev, React(n, ev)) && n.cfg.id == ev.id
  {
    GoodSafe(c, w);
    var n := c.hosts[ev.id].raft.value;
    assert HostOk(w, c.voters, c.cfgs[ev.id], c.hosts[ev.id]);
    NodeVoters(w, c.voters, n);
    ReactOutcome(n, ev);
  }

  /** The pieces of a step, as far as reads are concerned. */
  ghost predicate ReadStep(c: Cluster, ev: Event, c2: Cluster, n: Node, r: Node, m: Node) {
    && ev.id in c.hosts && c.hosts[ev.id].raft == Some(n) && n.cfg.id == ev.id
    && ev.id in c2.hosts && c2.hosts[ev.id].raft == Some(m)
    && (forall v :: v != ev.id ==> (v in c2.hosts <==> v in c.hosts) && (v in c.hosts ==> c2.hosts[v] == c.hosts[v]))
    && SameReads(r, m) && Outcome(n, ev, r) && c2.net == c.net + (set x | x in r.out.messages)
    && (ev.Deliver? ==> ev.msg in c.net)
  }

  lemma StepSourced(c: Cluster, ev: Event, c2: Cluster, n: Node, r: Node, m: Node)
    requires ReadStep(c, ev, c2, n, r, m) && EchoesSourced(c.net)
    ensures EchoesSourced(c2.net)
  {
    forall x | x in c2.net && Genuine(x)
      ensures exists a :: a in c2.net && a.body.AppendEntries? && a.term == x.term && a.body.readCtx == x.body.readCtx
    {
      if x in c.net {
        var a :| a in c.net && a.body.AppendEntries? && a.term == x.term && a.body.readCtx == x.body.readCtx;
        assert a in c2.net;
      } else {
        NewMessage(n, ev, r, x);
        assert ev.msg in c2.net;
      }
    }
  }

  lemma NewMessage(n: Node, ev: Event, r: Node, x: Message)
    requires Outcome(n, ev, r) && x in r.out.messages
    ensures MessageOk(n, ev, r, x)
  {}

  lemma StepRounds(c: Cluster, w: World, ev: Event, c2: Cluster, w2: World, n: Node, r: Node, m: Node)
    requires ReadStep(c, ev, c2, n, r, m) && Good(c, w) && Good(c2, w2) && Grows(w, w2) && RoundsBound(c)
    ensures RoundsBound(c2)
  {
    forall v, nv, a | LeaderIn(c2, v, nv) && a in c2.net && a.body.AppendEntries? && a.term == nv.hs.term
      ensures a.body.readCtx <= nv.readCtx
    {
      if a in c.net {
        if v != ev.id {
          assert LeaderIn(c, v, nv);
        } else if LeadsOn(n, ev, r) {
          assert LeaderIn(c, v, n);
        } else {
          NoAppendsYet(c, w, v, c2, w2, n, m, a);
        }
      } else {
        NewMessage(n, ev, r, a);
        assert LeaderIn(c2, ev.id, m);
        LeadersSame(c2, w2, v, nv, ev.id, m);
      }
    }
  }

  lemma StepPending(cs: seq<Cluster>, evs: seq<Event>, k: nat, n: Node, r: Node, m: Node)
    requires |cs| == |evs| + 1 && k < |evs| && ReadStep(cs[k], evs[k], cs[k + 1], n, r, m) && PendingOk(cs, evs, k)
    ensures PendingOk(cs, evs, k + 1)
  {
    var c, ev, c2 := cs[k], evs[k], cs[k + 1];
    forall v, nv, p | LeaderIn(c2, v, nv) && p in nv.pendingReads ensures WasRegistered(cs, evs, k + 1, v, nv.hs.term, p) {
      if v != ev.id {
        assert LeaderIn(c, v, nv);
        StillRegistered(cs, evs, k, v, nv.hs.term, p);
      } else if p in n.pendingReads {
        assert LeaderIn(c, v, n);
        StillRegistered(cs, evs, k, v, nv.hs.term, p);
      } else {
        assert Registered(cs[k], evs[k], v, m.hs.term, p);
      }
    }
  }

  lemma StillRegistered(cs: seq<Cluster>, evs: seq<Event>, k: nat, v: NodeId, t: Term, p: PendingRead)
    requires k + 1 < |cs| == |evs| + 1 && WasRegistered(cs, evs, k, v, t, p)
    ensures WasRegistered(cs, evs, k + 1, v, t, p)
  {
    var r: nat :| r < k && Registered(cs[r], evs[r], v, t, p);
  }

  /** Crashes and restarts create no leader and send nothing. */
  lemma QuietStep(c: Cluster, ev: Event, compact: bool, c2: Cluster)
    requires Steps(c, ev, compact, c2) && (ev.Crash? || ev.Restart?)
    ensures c2.net == c.net && forall v, n :: LeaderIn(c2, v, n) ==> LeaderIn(c, v, n)
  {
    assert (set x | x in NO_OUTPUT.messages) == {};
  }

  lemma QuietInv(cs: seq<Cluster>, evs: seq<Event>, k: nat)
    requires k < |evs| && |cs| == |evs| + 1 && ReadInv(cs, evs, k) && cs[k + 1].net == cs[k].net
    requires forall v, n :: LeaderIn(cs[k + 1], v, n) ==> LeaderIn(cs[k], v, n)
    ensures ReadInv(cs, evs, k + 1)
  {
    var c2 := cs[k + 1];
    forall v, n, a | LeaderIn(c2, v, n) && a in c2.net && a.body.AppendEntries? && a.term == n.hs.term
      ensures a.body.readCtx <= n.readCtx
    {
      assert LeaderIn(cs[k], v, n);
    }
    forall v, n, p | LeaderIn(c2, v, n) && p in n.pendingReads ensures WasRegistered(cs, evs, k + 1, v, n.hs.term, p) {
      assert LeaderIn(cs[k], v, n);
      StillRegistered(cs, evs, k, v, n.hs.term, p);
    }
  }

  /** The pieces of an ordinary step. */
  lemma StepPieces(c: Cluster, w: World, ev: Event, compact: bool, c2: Cluster) returns (n: Node, r: Node, m: Node)
    requires Good(c, w) && Steps(c, ev, compact, c2) && !ev.Crash? && !ev.Restart?
    ensures ReadStep(c, ev, c2, n, r, m)
  {
    n := c.hosts[ev.id].raft.value;
    r := React(n, ev);
    EventOutcome(c, w, ev);
    m := EventEffect(c, ev, compact);
  }

  lemma ReadInvStep(cs: seq<Cluster>, evs: seq<Event>, compacts: seq<bool>, k: nat)
    requires Run(cs, evs, compacts) && k < |evs| && ReadInv(cs, evs, k)
    ensures ReadInv(cs, evs, k + 1)
  {
    var w := RunGood(cs, evs, compacts, k);
    var w2 := StepGood(cs[k], w, evs[k], compacts[k], cs[k + 1]);
    if evs[k].Crash? || evs[k].Restart? {
      QuietStep(cs[k], evs[k], compacts[k], cs[k + 1]);
      QuietInv(cs, evs, k);
    } else {
      var n, r, m := StepPieces(cs[k], w, evs[k], compacts[k], cs[k + 1]);
      StepSourced(cs[k], evs[k], cs[k + 1], n, r, m);
      StepRounds(cs[k], w, evs[k], cs[k + 1], w2, n, r, m);
      StepPending(cs, evs, k, n, r, m);
    }
  }

  lemma {:induction false} ReadInvHolds(cs: seq<Cluster>, evs: seq<Event>, compacts: seq<bool>, k: nat)
    requires Run(cs, evs, compacts) && k <= |evs|
    ensures ReadInv(cs, evs, k)
    decreases k
  {
    if k > 0 {
      ReadInvHolds(cs, evs, compacts, k - 1);
      ReadInvStep(cs, evs, compacts, k - 1);
    } else {
      AllFollowFirst(cs[0]);
    }
  }

  // ------------------------------------------------------------- confirmations up to the registration

  /** What the step credits to a leader: a round of its own, or a stale echo's. */
  lemma CreditBound(c: Cluster, ev: Event, n: Node, u: NodeId)
    requires LeaderIn(c, ev.id, n) && EchoesSourced(c.net) && RoundsBound(c) && (ev.Deliver? ==> ev.msg in c.net)
    ensures CreditOf(ev, n.hs.term, u) > n.readCtx ==> Echoed(c, ev, ev.id, n.hs.term, CreditOf(ev, n.hs.term, u))
  {
    if ev.Deliver? && Genuine(ev.msg) && ev.msg.term == n.hs.term { GenuineBound(c, ev.id, n, ev.msg); }
  }

  lemma GenuineBound(c: Cluster, x: NodeId, n: Node, m: Message)
    requires LeaderIn(c, x, n) && EchoesSourced(c.net) && RoundsBound(c) && m in c.net && Genuine(m) && m.term == n.hs.term
    ensures m.body.readCtx <= n.readCtx
  {
    var a :| a in c.net && a.body.AppendEntries? && a.term == m.term && a.body.readCtx == m.body.readCtx;
  }

  /** As leader of term `t`, node `x` has no confirmation of round `ctx` before it opens it. */
  ghost predicate AcksBelow(c: Cluster, x: NodeId, t: Term, ctx: nat) {
    forall n, u :: LeaderIn(c, x, n) && n.hs.term == t ==> Acked(n, u) <= n.readCtx || Acked(n, u) < ctx
  }

  lemma StepAcks(c: Cluster, ev: Event, c2: Cluster, n: Node, r: Node, m: Node, x: NodeId, t: Term, ctx: nat)
    requires ReadStep(c, ev, c2, n, r, m) && EchoesSourced(c.net) && RoundsBound(c) && AcksBelow(c, x, t, ctx) && !Echoed(c, ev, x, t, ctx)
    ensures AcksBelow(c2, x, t, ctx)
  {
    forall nx, u | LeaderIn(c2, x, nx) && nx.hs.term == t ensures Acked(nx, u) <= nx.readCtx || Acked(nx, u) < ctx {
      if x != ev.id {
        assert LeaderIn(c, x, nx);
      } else if LeadsOn(n, ev, r) {
        assert LeaderIn(c, x, n);
        CreditBound(c, ev, n, u);
        assert Acked(r, u) <= Max(Acked(n, u), CreditOf(ev, r.hs.term, u));
      } else {
        assert Acked(r, u) == 0;
      }
    }
  }

  lemma {:induction false} AcksBelowHolds(cs: seq<Cluster>, evs: seq<Event>, compacts: seq<bool>, k: nat, x: NodeId, t: Term, ctx: nat)
    requires Run(cs, evs, compacts) && k <= |evs| && forall i :: 0 <= i < k ==> !Echoed(cs[i], evs[i], x, t, ctx)
    ensures AcksBelow(cs[k], x, t, ctx)
    decreases k
  {
    if k > 0 {
      var c, ev, c2 := cs[k - 1], evs[k - 1], cs[k];
      AcksBelowHolds(cs, evs, compacts, k - 1, x, t, ctx);
      if ev.Crash? || ev.Restart? {
        QuietStep(c, ev, compacts[k - 1], c2);
      } else {
        var w := RunGood(cs, evs, compacts, k - 1);
        ReadInvHolds(cs, evs, compacts, k - 1);
        var n, r, m := StepPieces(c, w, ev, compacts[k - 1], c2);
        StepAcks(c, ev, c2, n, r, m, x, t, ctx);
      }
    } else {
      AllFollowFirst(cs[0]);
    }
  }

  // ------------------------------------------------------------- confirmations after the registration

  /** A reply that may confirm a read registered at `c0`: an answer in the append's own term, or one sent since. */
  predicate Counts(c0: Cluster, m: Message, t: Term, ctx: nat) {
    m.body.AppendEntriesResp? && m.term == t && m.body.readCtx >= ctx && (Genuine(m) || m !in c0.net)
  }

  ghost predicate RepliesFair(c0: Cluster, net: set<Message>, t: Term, ctx: nat) {
    forall m :: m in net && Counts(c0, m, t, ctx) && m.from in c0.hosts && m.from in c0.cfgs ==> TermIn(c0, m.from) <= t
  }

  ghost predicate AcksFair(c0: Cluster, n: Node, t: Term, ctx: nat) {
    forall u :: u in c0.hosts && u in c0.cfgs && Acked(n, u) >= ctx ==> TermIn(c0, u) <= t
  }

  /** Nobody who was already past term `t` at `c0` has confirmed round `ctx` to its leader `x`, or is about to. */
  ghost predicate Fair(c0: Cluster, c: Cluster, x: NodeId, t: Term, ctx: nat) {
    && RepliesFair(c0, c.net, t, ctx)
    && forall n :: LeaderIn(c, x, n) && n.hs.term == t ==> AcksFair(c0, n, t, ctx)
  }

  lemma StepReplies(c0: Cluster, c: Cluster, ev: Event, c2: Cluster, n: Node, r: Node, m: Node, t: Term, ctx: nat)
    requires ReadStep(c, ev, c2, n, r, m) && RepliesFair(c0, c.net, t, ctx)
    requires ev.id in c0.hosts && ev.id in c0.cfgs && TermIn(c0, ev.id) <= m.hs.term
    ensures RepliesFair(c0, c2.net, t, ctx)
  {
    forall a | a in c2.net && Counts(c0, a, t, ctx) && a.from in c0.hosts && a.from in c0.cfgs ensures TermIn(c0, a.from) <= t {
      if a !in c.net { NewMessage(n, ev, r, a); }
    }
  }

  lemma StepFair(c0: Cluster, c: Cluster, ev: Event, c2: Cluster, n: Node, r: Node, m: Node, x: NodeId, t: Term, ctx: nat)
    requires ReadStep(c, ev, c2, n, r, m) && Fair(c0, c, x, t, ctx) && ctx > 0
    requires ev.id in c0.hosts && ev.id in c0.cfgs && TermIn(c0, ev.id) <= m.hs.term
    requires Echoed(c, ev, x, t, ctx) ==> ev.msg !in c0.net
    ensures Fair(c0, c2, x, t, ctx)
  {
    StepReplies(c0, c, ev, c2, n, r, m, t, ctx);
    forall nx | LeaderIn(c2, x, nx) && nx.hs.term == t ensures AcksFair(c0, nx, t, ctx) {
      if x != ev.id {
        assert LeaderIn(c, x, nx);
      } else {
        OwnAcksFair(c0, c, ev, c2, n, r, m, t, ctx);
      }
    }
  }

  lemma OwnAcksFair(c0: Cluster, c: Cluster, ev: Event, c2: Cluster, n: Node, r: Node, m: Node, t: Term, ctx: nat)
    requires ReadStep(c, ev, c2, n, r, m) && Fair(c0, c, ev.id, t, ctx) && ctx > 0 && LeaderIn(c2, ev.id, m) && m.hs.term == t
    requires Echoed(c, ev, ev.id, t, ctx) ==> ev.msg !in c0.net
    ensures AcksFair(c0, m, t, ctx)
  {
    forall u | u in c0.hosts && u in c0.cfgs && Acked(m, u) >= ctx ensures TermIn(c0, u) <= t {
      assert LeadsOn(n, ev, r) || Acked(r, u) == 0;
      assert LeaderIn(c, ev.id, n);
      assert Acked(r, u) <= Max(Acked(n, u), CreditOf(ev, r.hs.term, u));
      if Acked(n, u) < ctx { assert Counts(c0, ev.msg, t, ctx) && ev.msg in c.net; }
    }
  }

  /** A read just registered has no confirmations, and none under way. */
  lemma FairAtFirst(c: Cluster, ev: Event, c2: Cluster, n: Node, r: Node, m: Node, x: NodeId, t: Term, p: PendingRead)
    requires ReadStep(c, ev, c2, n, r, m) && EchoesSourced(c.net) && RoundsBound(c) && AcksBelow(c, x, t, p.ctx)
    requires Registered(c, ev, x, t, p) && x in c.cfgs
    ensures Fair(c, c2, x, t, p.ctx)
  {
    assert LeaderIn(c, x, n) && n.hs.term == t;
    forall a | a in c.net && Genuine(a) && a.term == t ensures a.body.readCtx < p.ctx { GenuineBound(c, x, n, a); }
    forall a | a in c2.net && Counts(c, a, t, p.ctx) && a.from in c.hosts && a.from in c.cfgs ensures TermIn(c, a.from) <= t {
      if a !in c.net { NewMessage(n, ev, r, a); }
    }
    forall u ensures m.role == Leader ==> Acked(m, u) < p.ctx {
      assert Acked(n, u) < p.ctx && Acked(r, u) == Acked(m, u);
      assert LeadsOn(n, ev, r) ==> Acked(r, u) <= Max(Acked(n, u), CreditOf(ev, r.hs.term, u));
    }
  }

  lemma ActorTerm(cs: seq<Cluster>, evs: seq<Event>, compacts: seq<bool>, k: nat, r0: nat, m: Node)
    requires Run(cs, evs, compacts) && r0 <= k < |evs| && evs[k].id in cs[k + 1].hosts && cs[k + 1].hosts[evs[k].id].raft == Some(m)
    ensures evs[k].id in cs[r0].hosts && evs[k].id in cs[r0].cfgs && TermIn(cs[r0], evs[k].id) <= m.hs.term
  {
    ConfigFixed(cs, evs, compacts, r0);
    ConfigFixed(cs, evs, compacts, k + 1);
    TermsGrow(cs, evs, compacts, r0, k + 1, evs[k].id);
  }

  lemma {:induction false} FairHolds(cs: seq<Cluster>, evs: seq<Event>, compacts: seq<bool>, r: nat, k: nat, x: NodeId, t: Term, p: PendingRead)
    requires Run(cs, evs, compacts) && r < k <= |evs| && Registered(cs[r], evs[r], x, t, p) && AcksBelow(cs[r], x, t, p.ctx)
    requires forall i :: r < i < k && Echoed(cs[i], evs[i], x, t, p.ctx) ==> evs[i].msg !in cs[r].net
    ensures Fair(cs[r], cs[k], x, t, p.ctx)
    decreases k
  {
    if k - 1 == r {
      FairStarts(cs, evs, compacts, r, x, t, p);
    } else {
      FairHolds(cs, evs, compacts, r, k - 1, x, t, p);
      FairGoesOn(cs, evs, compacts, r, k - 1, x, t, p.ctx);
    }
  }

  lemma FairStarts(cs: seq<Cluster>, evs: seq<Event>, compacts: seq<bool>, r: nat, x: NodeId, t: Term, p: PendingRead)
    requires Run(cs, evs, compacts) && r < |evs| && Registered(cs[r], evs[r], x, t, p) && AcksBelow(cs[r], x, t, p.ctx)
    ensures Fair(cs[r], cs[r + 1], x, t, p.ctx)
  {
    var w := RunGood(cs, evs, compacts, r);
    ReadInvHolds(cs, evs, compacts, r);
    ConfigFixed(cs, evs, compacts, r);
    var n, rr, m := StepPieces(cs[r], w, evs[r], compacts[r], cs[r + 1]);
    FairAtFirst(cs[r], evs[r], cs[r + 1], n, rr, m, x, t, p);
  }

  lemma FairGoesOn(cs: seq<Cluster>, evs: seq<Event>, compacts: seq<bool>, r: nat, k: nat, x: NodeId, t: Term, ctx: nat)
    requires Run(cs, evs, compacts) && r < k < |evs| && Fair(cs[r], cs[k], x, t, ctx) && ctx > 0
    requires Echoed(cs[k], evs[k], x, t, ctx) ==> evs[k].msg !in cs[r].net
    ensures Fair(cs[r], cs[k + 1], x, t, ctx)
  {
    if evs[k].Crash? || evs[k].Restart? {
      QuietStep(cs[k], evs[k], compacts[k], cs[k + 1]);
    } else {
      var w := RunGood(cs, evs, compacts, k);
      var n, rr, m := StepPieces(cs[k], w, evs[k], compacts[k], cs[k + 1]);
      ActorTerm(cs, evs, compacts, k, r, m);
      StepFair(cs[r], cs[k], evs[k], cs[k + 1], n, rr, m, x, t, ctx);
    }
  }

  lemma AllFollowFirst(c: Cluster)
    requires Init(c)
    ensures forall v :: v in c.hosts ==> c.hosts[v].raft.Some? && c.hosts[v].raft.value.role == Follower
  {
    forall v | v in c.hosts ensures c.hosts[v].raft.Some? && c.hosts[v].raft.value.role == Follower {
      var rnd: nat :| c.hosts[v] == Host(Some(New(c.cfgs[v], c.voters, BLANK, rnd)), BLANK, Kvsm.EMPTY, 0);
    }
  }

  // ------------------------------------------------------------- the theorem

  lemma GoodLeader(c: Cluster, w: World, x: NodeId, n: Node)
    requires Good(c, w) && LeaderIn(c, x, n)
    ensures Safe(w) && Known(w, x, n) && n.hs.term in w.reigns && w.reigns[n.hs.term].commit <= n.commit && n.hs.term > 0
    ensures Voters(n) == c.voters
  {
    GoodSafe(c, w);
    GoodKnown(c, w, x);
    assert HostOk(w, c.voters, c.cfgs[x], c.hosts[x]);
    assert LeaderOk(w, n);
    assert ReignOk(w, n.hs.term) && RunOk(w, w.peers[x], n.hs.term);
    NodeVoters(w, c.voters, n);
  }

  /** At registration the leader's commit index covers every commit of its own and of earlier terms. */
  lemma OwnTermCommit(w: World, x: NodeId, n: Node, t: Term)
    requires Safe(w) && Known(w, x, n) && n.role == Leader && n.log.TermOf(n.commit) == Some(n.hs.term) && n.hs.term > 0
    requires w.reigns[n.hs.term].commit <= n.commit && t in w.reigns && t <= n.hs.term
    ensures w.reigns[t].commit <= n.commit
  {
    var u, log, i, m := n.hs.term, w.peers[x].log, n.commit, w.reigns[t].commit;
    if t < u && m > 0 {
      assert ReignOk(w, t);
      LogViewFacts(n.log, log);
      LeaderCompleteness(w, t, u);
      assert log[m - 1] == log[..m][m - 1] == w.reigns[t].log[..m][m - 1];
      if i <= m { TermsAscend(w, log, i, m); }
    }
  }

  /** A commit in a later term means that a quorum had left the read's term. */
  lemma LaterCommitQuorum(w: World, t: Term) returns (q: set<NodeId>)
    requires Safe(w) && t in w.reigns && w.reigns[t].commit > 0
    ensures Quorum(w.peers.Keys, q) && forall v :: v in q ==> w.peers[v].term >= t
  {
    assert ReignOk(w, t);
    q :| AckedBy(w, t, w.reigns[t].commit, q);
    forall v | v in q ensures w.peers[v].term >= t { assert AckOk(w, w.peers[v], t); }
  }

  /** If a quorum had not left the read's term when it was registered, its index was current. */
  lemma RegisteredCurrent(c: Cluster, w: World, x: NodeId, n: Node, q: set<NodeId>, t: Term)
    requires Good(c, w) && LeaderIn(c, x, n) && n.log.TermOf(n.commit) == Some(n.hs.term)
    requires Quorum(w.peers.Keys, q) && (forall v :: v in q ==> w.peers[v].term <= n.hs.term)
    requires t in w.reigns
    ensures w.reigns[t].commit <= n.commit
  {
    GoodLeader(c, w, x, n);
    if t <= n.hs.term {
      OwnTermCommit(w, x, n, t);
    } else if w.reigns[t].commit > 0 {
      var q2 := LaterCommitQuorum(w, t);
      var v := QuorumsMeet(w.peers.Keys, q, q2);
    }
  }

  /** The nodes that confirmed the read had not left its term when it was registered. */
  lemma ConfirmedTerms(cs: seq<Cluster>, evs: seq<Event>, compacts: seq<bool>, e: nat, r: nat, n: Node, p: PendingRead, q: set<NodeId>)
    requires Run(cs, evs, compacts) && r <= e < |evs| && Enabled(cs[e], evs[e]) && ConfirmedBy(n, evs[e], p.ctx, q)
    requires LeaderIn(cs[e], evs[e].id, n) && n.cfg.id == evs[e].id && Registered(cs[r], evs[r], evs[e].id, n.hs.term, p)
    requires Undisturbed(cs, evs, r, e, evs[e].id, n.hs.term, p.ctx)
    ensures forall v :: v in q && v in cs[r].hosts && v in cs[r].cfgs ==> TermIn(cs[r], v) <= n.hs.term
  {
    var x, t := evs[e].id, n.hs.term;
    EarlyEchoes(cs, evs, compacts, r, e, x, t, p.ctx);
    AcksBelowHolds(cs, evs, compacts, r, x, t, p.ctx);
    if r < e { FairHolds(cs, evs, compacts, r, e, x, t, p); }
    forall v | v in q && v in cs[r].hosts && v in cs[r].cfgs ensures TermIn(cs[r], v) <= t {
      if v != x && r < e && Acked(n, v) < p.ctx { assert Counts(cs[r], evs[e].msg, t, p.ctx); }
    }
  }

  /** An echo delivered before the registration was under way at the registration. */
  lemma EarlyEchoes(cs: seq<Cluster>, evs: seq<Event>, compacts: seq<bool>, r: nat, e: nat, x: NodeId, t: Term, ctx: nat)
    requires Run(cs, evs, compacts) && r <= e < |evs| && Undisturbed(cs, evs, r, e, x, t, ctx)
    ensures forall i :: 0 <= i < r ==> !Echoed(cs[i], evs[i], x, t, ctx)
  {
    forall i | 0 <= i < r ensures !Echoed(cs[i], evs[i], x, t, ctx) {
      NetMonotone(cs, evs, compacts, i, r);
      assert Steps(cs[i], evs[i], compacts[i], cs[i + 1]);
    }
  }

  /** Every index that any node had committed by state `r` is at most `idx`. */
  ghost predicate Current(cs: seq<Cluster>, r: nat, idx: Index)
    requires r < |cs|
  {
    forall i: nat, v :: i <= r && v in cs[i].hosts && v in cs[i].cfgs ==> NodeAt(cs[i], v).commit <= idx
  }

  lemma AllCommitsBelow(cs: seq<Cluster>, evs: seq<Event>, compacts: seq<bool>, r: nat, x: NodeId, n: Node, q: set<NodeId>)
    requires Run(cs, evs, compacts) && r <= |evs| && LeaderIn(cs[r], x, n) && n.log.TermOf(n.commit) == Some(n.hs.term)
    requires (forall v :: v in q ==> v in cs[r].voters) && 2 * |q| > |cs[r].voters|
    requires forall v :: v in q && v in cs[r].hosts && v in cs[r].cfgs ==> TermIn(cs[r], v) <= n.hs.term
    ensures Current(cs, r, n.commit)
  {
    ConfigFixed(cs, evs, compacts, r);
    forall i: nat, v | i <= r && v in cs[i].hosts && v in cs[i].cfgs ensures NodeAt(cs[i], v).commit <= n.commit {
      var w, w2 := RunPairGood(cs, evs, compacts, i, r);
      GoodKnown(cs[i], w, v);
      VotersQuorum(cs[r], w2, q, n.hs.term);
      CommitBelow(cs[r], w, w2, x, n, q, NodeAt(cs[i], v), v);
    }
  }

  lemma VotersQuorum(c: Cluster, w: World, q: set<NodeId>, t: Term)
    requires Good(c, w) && (forall v :: v in q ==> v in c.voters) && 2 * |q| > |c.voters|
    requires forall v :: v in q && v in c.hosts && v in c.cfgs ==> TermIn(c, v) <= t
    ensures Quorum(w.peers.Keys, q) && forall v :: v in q ==> w.peers[v].term <= t
  {
    GoodSafe(c, w);
    RaftSending.SetOfVoters(c.voters, w.peers.Keys);
    forall v | v in q ensures w.peers[v].term <= t { GoodKnown(c, w, v); }
  }

  lemma CommitBelow(c: Cluster, w: World, w2: World, x: NodeId, n: Node, q: set<NodeId>, a: Node, v: NodeId)
    requires Good(c, w2) && Grows(w, w2) && LeaderIn(c, x, n) && n.log.TermOf(n.commit) == Some(n.hs.term)
    requires Quorum(w2.peers.Keys, q) && (forall u :: u in q ==> w2.peers[u].term <= n.hs.term) && Known(w, v, a)
    ensures a.commit <= n.commit
  {
    if a.commit > 0 {
      var t: Term :| t <= a.hs.term && CommittedBy(w, w.peers[v].log, a.commit, t);
      RegisteredCurrent(c, w2, x, n, q, t);
    }
  }

  /** Where a released read was registered, and who confirmed it. */
  lemma ReleasedWhence(cs: seq<Cluster>, evs: seq<Event>, compacts: seq<bool>, e: nat, rs: ReadState)
    returns (r: nat, n: Node, p: PendingRead, q: set<NodeId>)
    requires Run(cs, evs, compacts) && e < |evs| && Enabled(cs[e], evs[e]) && rs in OutputOf(cs[e], evs[e]).readStates
    ensures r <= e && LeaderIn(cs[e], evs[e].id, n) && n.cfg.id == evs[e].id && rs == ReadState(p.id, p.index)
    ensures Registered(cs[r], evs[r], evs[e].id, n.hs.term, p) && ConfirmedBy(n, evs[e], p.ctx, q)
  {
    ReadInvHolds(cs, evs, compacts, e);
    var w := RunGood(cs, evs, compacts, e);
    EventOutcome(cs[e], w, evs[e]);
    n := cs[e].hosts[evs[e].id].raft.value;
    assert ReleasedRight(n, evs[e], rs);
    p, q :| && n.role == Leader && rs == ReadState(p.id, p.index)
            && (p in n.pendingReads || NewRead(n, evs[e], p)) && ConfirmedBy(n, evs[e], p.ctx, q);
    if p in n.pendingReads {
      assert WasRegistered(cs, evs, e, evs[e].id, n.hs.term, p);
      r :| r < e && Registered(cs[r], evs[r], evs[e].id, n.hs.term, p);
    } else {
      r := e;
    }
  }

  /** Linearizable reads, in every run: a released read `p` was registered at some step `r` with the leader that
      releases it, and its index covers everything any node had committed by then, unless that leader was credited
      with an answer to an older term's append, for the read's round or a later one, that was under way at `r`. */
  lemma ReadsAreCurrent(cs: seq<Cluster>, evs: seq<Event>, compacts: seq<bool>, e: nat, rs: ReadState)
    returns (r: nat, t: Term, p: PendingRead)
    requires Run(cs, evs, compacts) && e < |evs| && Enabled(cs[e], evs[e]) && rs in OutputOf(cs[e], evs[e]).readStates
    ensures LeadsTerm(cs[e], evs[e].id, t) && rs == ReadState(p.id, p.index)
    ensures r <= e && evs[r] == ClientRead(evs[e].id, rs.id) && Registered(cs[r], evs[r], evs[e].id, t, p)
    ensures Undisturbed(cs, evs, r, e, evs[e].id, t, p.ctx) ==> Current(cs, r, rs.index)
  {
    var n, q;
    r, n, p, q := ReleasedWhence(cs, evs, compacts, e, rs);
    t := n.hs.term;
    if Undisturbed(cs, evs, r, e, evs[e].id, t, p.ctx) {
      ConfirmedTerms(cs, evs, compacts, e, r, n, p, q);
      var w := RunGood(cs, evs, compacts, e);
      GoodLeader(cs[e], w, evs[e].id, n);
      ConfigFixed(cs, evs, compacts, e);
      ConfigFixed(cs, evs, compacts, r);
      AllCommitsBelow(cs, evs, compacts, r, evs[e].id, cs[r].hosts[evs[e].id].raft.value, q);
    }
  }
}
