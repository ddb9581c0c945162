/** A follower's handling of appends and snapshots is the protocol's `Adopt`. */
module RaftFollowing {
  import opened Prelude
  import opened RaftTypes
  import opened RaftLogs
  import opened RaftCore
  import opened RaftHost
  import opened RaftProtocol
  import opened RaftActions
  import opened RaftSafety
  import opened RaftLeading
  import opened RaftCoupling
  import opened RaftSending
  import opened RaftDisk
  import opened RaftElecting
  import opened RaftCommitting

  // ------------------------------------------------------------- merging a batch, on logs alone

  /** `es` is the piece of the leader's log `lead` after `prev`. */
  ghost predicate Piece(lead: seq<Entry>, prev: Index, es: seq<Entry>) {
    prev + |es| <= |lead| && es == lead[prev..prev + |es|]
  }

  ghost predicate Numbered(log: seq<Entry>) { forall i :: 0 <= i < |log| ==> log[i].index == i + 1 }

  lemma NumberedLog(r: map<Term, Reign>, log: seq<Entry>)
    requires LogOk(r, log)
    ensures Numbered(log)
  {
    forall i | 0 <= i < |log| ensures log[i].index == i + 1 { IndexOfEntry(r, log, i); }
  }

  /** The entries before the first new one are held with the same terms; the first new one is not. */
  lemma {:induction false} FirstNewFacts(l: RaftLog, log: seq<Entry>, lead: seq<Entry>, prev: Index, es: seq<Entry>)
    requires LogView(l, log) && Piece(lead, prev, es) && Numbered(lead) && l.snapIndex <= prev <= |log|
    ensures var i := FirstNew(l, es);
            && i <= |es| && prev + i <= |log|
            && (forall j: Index :: prev < j <= prev + i ==> TermAt(log, j) == TermAt(lead, j))
            && (i < |es| ==> prev + i == |log| || TermAt(log, prev + i + 1) != TermAt(lead, prev + i + 1))
    decreases |es|
  {
    if es != [] {
      LogViewFacts(l, log);
      assert es[0] == lead[prev];
      if l.TermOf(es[0].index) == Some(es[0].term) {
        assert es[1..] == lead[prev + 1..prev + 1 + |es[1..]|];
        FirstNewFacts(l, log, lead, prev + 1, es[1..]);
      }
    }
  }

  /** What the follower's log must become. */
  function Adopted(log: seq<Entry>, lead: seq<Entry>, k: Index): seq<Entry>
    requires k <= |lead|
  {
    if Agree(log, lead, k) then log else lead[..k]
  }

  lemma MatchedPrefix(r: map<Term, Reign>, l: RaftLog, log: seq<Entry>, lead: seq<Entry>, prev: Index, es: seq<Entry>)
    requires LogOk(r, log) && LogOk(r, lead) && LogView(l, log) && Piece(lead, prev, es)
    requires l.snapIndex <= prev <= |log| && TermAt(log, prev) == TermAt(lead, prev)
    ensures var i := FirstNew(l, es);
            && i <= |es| && Agree(log, lead, prev + i)
            && (i < |es| ==> !Agree(log, lead, prev + i + 1))
  {
    NumberedLog(r, lead);
    FirstNewFacts(l, log, lead, prev, es);
    var i := FirstNew(l, es);
    LogMatching(r, log, lead, prev + i);
    if i < |es| && prev + i < |log| {
      assert log[prev + i].term != lead[prev + i].term;
      assert log[..prev + i + 1][prev + i] != lead[..prev + i + 1][prev + i];
    }
  }

  lemma AgreeMonotone(a: seq<Entry>, b: seq<Entry>, i: Index, j: Index)
    requires Agree(a, b, j) && i <= j
    ensures Agree(a, b, i)
  {
    assert a[..i] == a[..j][..i] && b[..i] == b[..j][..i];
  }

  lemma DisagreeMonotone(a: seq<Entry>, b: seq<Entry>, i: Index, j: Index)
    requires !Agree(a, b, i) && i <= j
    ensures !Agree(a, b, j)
  {
    if Agree(a, b, j) { AgreeMonotone(a, b, i, j); }
  }

  /** Truncating at the first new entry and appending the rest gives exactly the adopted log. */
  lemma MergedIsAdopted(r: map<Term, Reign>, l: RaftLog, log: seq<Entry>, lead: seq<Entry>, prev: Index, es: seq<Entry>)
    requires LogOk(r, log) && LogOk(r, lead) && LogView(l, log) && Piece(lead, prev, es)
    requires l.snapIndex <= prev <= |log| && TermAt(log, prev) == TermAt(lead, prev)
    ensures LogView(Merged(l, es), Adopted(log, lead, prev + |es|))
  {
    var i := FirstNew(l, es);
    MatchedPrefix(r, l, log, lead, prev, es);
    if i < |es| {
      NumberedLog(r, lead);
      ReplacedIsAdopted(l, log, lead, prev, es, i);
    }
  }

  lemma ReplacedIsAdopted(l: RaftLog, log: seq<Entry>, lead: seq<Entry>, prev: Index, es: seq<Entry>, i: nat)
    requires LogView(l, log) && Piece(lead, prev, es) && l.snapIndex <= prev && i < |es| && Numbered(lead)
    requires i == FirstNew(l, es) && Agree(log, lead, prev + i) && !Agree(log, lead, prev + i + 1)
    ensures LogView(Merged(l, es), Adopted(log, lead, prev + |es|))
  {
    var k := prev + |es|;
    assert es[i] == lead[prev + i];
    DisagreeMonotone(log, lead, prev + i + 1, k);
    MergedEntries(l, log, lead, prev, es, i);
    TermAgrees(log, lead, l.snapIndex, prev + i);
    PrefixView(Merged(l, es), lead, k);
    assert Adopted(log, lead, k) == lead[..k];
  }

  lemma PrefixView(l: RaftLog, lead: seq<Entry>, k: Index)
    requires l.snapIndex <= k <= |lead| && l.snapTerm == TermAt(lead, l.snapIndex) && l.entries == lead[l.snapIndex..k]
    ensures LogView(l, lead[..k])
  {
    assert lead[..k][l.snapIndex..] == lead[l.snapIndex..k];
  }

  lemma TermAgrees(a: seq<Entry>, b: seq<Entry>, i: Index, j: Index)
    requires Agree(a, b, j) && i <= j
    ensures TermAt(a, i) == TermAt(b, i)
  {
    if i > 0 { assert a[i - 1] == a[..j][i - 1] == b[..j][i - 1] == b[i - 1]; }
  }

  lemma MergedAt(l: RaftLog, es: seq<Entry>, i: nat, k: Index)
    requires i == FirstNew(l, es) && i < |es| && es[i].index == k + 1 && l.snapIndex <= k <= l.LastIndex()
    ensures Merged(l, es) == RaftLog(l.snapIndex, l.snapTerm, l.entries[..k - l.snapIndex] + es[i..])
  {
    if k == l.LastIndex() { assert l.entries[..k - l.snapIndex] == l.entries; }
  }

  lemma MergedEntries(l: RaftLog, log: seq<Entry>, lead: seq<Entry>, prev: Index, es: seq<Entry>, i: nat)
    requires LogView(l, log) && Piece(lead, prev, es) && l.snapIndex <= prev && i < |es|
    requires i == FirstNew(l, es) && Agree(log, lead, prev + i) && es[i].index == prev + i + 1
    ensures Merged(l, es).snapIndex == l.snapIndex && Merged(l, es).snapTerm == l.snapTerm
    ensures Merged(l, es).entries == lead[l.snapIndex..prev + |es|]
  {
    LogViewFacts(l, log);
    MergedAt(l, es, i, prev + i);
    Stitched(log, lead, l.snapIndex, prev, es, i);
  }

  lemma Stitched(log: seq<Entry>, lead: seq<Entry>, s: Index, prev: Index, es: seq<Entry>, i: nat)
    requires Piece(lead, prev, es) && s <= prev && i <= |es| && Agree(log, lead, prev + i)
    ensures log[s..][..prev + i - s] + es[i..] == lead[s..prev + |es|]
  {
    assert log[s..][..prev + i - s] == log[..prev + i][s..] == lead[..prev + i][s..] == lead[s..prev + i];
    assert es[i..] == lead[prev + i..prev + |es|];
  }

  // ------------------------------------------------------------- persisting a merged batch

  lemma MergedMirrors(d: Persisted, n: Node, es: seq<Entry>, i: nat, k: Index)
    requires Mirrors(d, n) && Contiguous(n.log.entries, n.log.snapIndex)
    requires i < |es| && Contiguous(es[i..], k) && n.log.snapIndex <= k <= n.log.LastIndex()
    requires Merged(n.log, es).entries == n.log.entries[..k - n.log.snapIndex] + es[i..]
    requires Merged(n.log, es).snapIndex == n.log.snapIndex
    ensures Mirrors(d, n.(log := Merged(n.log, es), out := n.out.(append := n.out.append + es[i..])))
  {
    var kept := if n.out.snapshot.Some? then [] else d.entries;
    StoreConcat(kept, n.out.append, es[i..]);
    StoreBatch(n.log.entries, n.log.snapIndex, es[i..], k);
  }

  lemma NothingNewMirrors(d: Persisted, n: Node, es: seq<Entry>)
    requires Mirrors(d, n) && FirstNew(n.log, es) >= |es|
    ensures Mirrors(d, n.(log := Merged(n.log, es), out := n.out.(append := n.out.append + es[|es|..])))
  {
    assert n.out.append + es[|es|..] == n.out.append;
  }

  // ------------------------------------------------------------- adopting

  lemma AdoptBy(w: World, k: NodeId, i: Index)
    requires Safe(w) && k in w.peers && w.peers[k].term in w.reigns && i <= |w.reigns[w.peers[k].term].log|
    ensures By(w, Adopt(w, k, i), k) && Safe(Adopt(w, k, i)) && Adopt(w, k, i).reigns == w.reigns
    ensures var p, p2 := w.peers[k], Adopt(w, k, i).peers[k];
            && p2 == p.(log := p2.log, acks := p2.acks)
            && Agree(p2.log, p.log, p.commit)
            && Agree(p2.log, w.reigns[p.term].log, i)
            && Ack(p2, p.term) >= i
  {
    AdoptSafe(w, k, i);
    CommitInOwnReign(w, k);
    var p, lead := w.peers[k], w.reigns[w.peers[k].term].log;
    AdoptKeepsAgreement(w, k, i, lead, p.commit);
  }

  /** After `Adopt`, a follower whose log became the adopted one is in order. */
  lemma AdoptedGoing(w: World, x: Ctx, n: Node, n2: Node, k: Index)
    requires Safe(w) && Going(w, x, n) && n.role == Follower && n.hs.term in w.reigns
    requires k <= |w.reigns[n.hs.term].log|
    requires n2 == n.(log := n2.log, out := n.out.(append := n2.out.append))
    requires n2.log.snapIndex == n.log.snapIndex && n2.log.snapTerm == n.log.snapTerm
    requires LogView(n2.log, Adopt(w, x.id, k).peers[x.id].log)
    requires Mirrors(x.disk, n2)
    ensures By(w, Adopt(w, x.id, k), x.id) && Safe(Adopt(w, x.id, k))
    ensures Going(Adopt(w, x.id, k), x, n2)
  {
    var w2 := Adopt(w, x.id, k);
    AdoptBy(w, x.id, k);
    var log, log2 := w.peers[x.id].log, w2.peers[x.id].log;
    AgreeMonotone(log2, log, n.log.snapIndex, n.commit);
    assert Emitted(x.base, n2, log2) by {
      var from := if n.out.snapshot.Some? then n.out.snapshot.value.lastIndex else x.base;
      assert log2[from..n.commit] == log2[..n.commit][from..] == log[..n.commit][from..] == log[from..n.commit];
    }
    assert NodeOk(w2, x.voters, n2);
    MovedGoing(w, w2, x, n, n2);
  }

  /** Acknowledging what the follower already shares with its leader changes nothing else. */
  lemma AckGoing(w: World, x: Ctx, n: Node, k: Index)
    requires Safe(w) && Going(w, x, n) && n.role == Follower && n.hs.term in w.reigns
    requires Agree(w.peers[x.id].log, w.reigns[n.hs.term].log, k)
    ensures By(w, Adopt(w, x.id, k), x.id) && Safe(Adopt(w, x.id, k)) && Going(Adopt(w, x.id, k), x, n)
    ensures Ack(Adopt(w, x.id, k).peers[x.id], n.hs.term) >= k
    ensures Adopt(w, x.id, k).peers[x.id].log == w.peers[x.id].log
    ensures Adopt(w, x.id, k).reigns == w.reigns
  {
    AdoptedGoing(w, x, n, n, k);
    AdoptBy(w, x.id, k);
  }

  lemma SetCommitBy(w: World, k: NodeId, c: Index)
    requires Safe(w) && k in w.peers && c <= |w.peers[k].log| && Committed(w, w.peers[k].log, c, w.peers[k].term)
    ensures By(w, SetCommit(w, k, c), k) && Safe(SetCommit(w, k, c))
  {
    SetCommitSafe(w, k, c);
  }

  lemma FollowerAdvanceGoing(w: World, x: Ctx, n: Node, c: Index, rnd: nat)
    requires Safe(w) && Going(w, x, n) && n.role == Follower
    requires n.commit <= c <= |w.peers[x.id].log| && Committed(w, w.peers[x.id].log, c, n.hs.term)
    ensures By(w, SetCommit(w, x.id, c), x.id) && Safe(SetCommit(w, x.id, c))
    ensures Going(SetCommit(w, x.id, c), x, AdvanceCommit(n, c, rnd))
    ensures AdvanceCommit(n, c, rnd).role == Follower && AdvanceCommit(n, c, rnd).hs == n.hs
  {
    var w2, n2 := SetCommit(w, x.id, c), AdvanceCommit(n, c, rnd);
    SetCommitBy(w, x.id, c);
    AdvanceShape(w, x, n, c, rnd);
    assert NodeOk(w2, x.voters, n2);
    MovedGoing(w, w2, x, n, n2);
  }
}
