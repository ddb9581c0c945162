/** The loop of `compact_level` that rewrites a merged stream into new tables
    (crates/storage/src/db.rs:413-478), against the set of versions that must survive. */
module LsmRewrite {
  import opened Prelude
  import opened LsmSpec
  import opened LsmOrder
  import opened LsmLevels

  /** The version written last, in the open table or in the last closed one. */
  function LastOf(outputs: Level, open: seq<Ver>): Option<Ver> {
    if open != [] then Some(open[|open| - 1])
    else if outputs != [] && outputs[|outputs| - 1].entries != [] then
      Some(outputs[|outputs| - 1].entries[|outputs[|outputs| - 1].entries| - 1])
    else None
  }

  function Stamp(v: Option<Ver>): Option<(Bytes, nat)> { if v.None? then None else Some((v.value.key, v.value.num)) }

  ghost function OutSet(outputs: Level, open: seq<Ver>): set<Ver> { LevelSet(outputs) + SetOf(open) }

  /** The state of the loop before version `i` of the stream. */
  ghost predicate Rewriting(merged: seq<Ver>, i: nat, minSnap: nat, bottom: bool, outputs: Level, open: seq<Ver>) {
    var tables := Chained(outputs, open);
    var written := i <= |merged| && Written(merged, i, minSnap, bottom, OutSet(outputs, open));
    && tables && written
    && (outputs != [] ==> forall j :: i <= j < |merged| ==> Less(outputs[|outputs| - 1].MaxKey(), merged[j].key))
  }

  lemma LastOfWritten(merged: seq<Ver>, i: nat, minSnap: nat, bottom: bool, outputs: Level, open: seq<Ver>) returns (j: nat)
    requires Rewriting(merged, i, minSnap, bottom, outputs, open) && LastOf(outputs, open).Some?
    ensures j < i && merged[j] == LastOf(outputs, open).value && merged[j] in OutSet(outputs, open)
  {
    var v := LastOf(outputs, open).value;
    if open == [] { assert v in outputs[|outputs| - 1].entries; }
    assert v in OutSet(outputs, open);
    assert v in merged[..i];
    j :| 0 <= j < i && merged[..i][j] == v;
  }

  lemma InOutSurvives(merged: seq<Ver>, i: nat, minSnap: nat, bottom: bool, out: set<Ver>, x: Ver)
    requires i <= |merged| && Written(merged, i, minSnap, bottom, out) && x in out
    ensures Survives(SetOf(merged), minSnap, bottom, x)
  {
    assert x in merged[..i];
    var j :| 0 <= j < i && merged[..i][j] == x;
    assert merged[j] == x;
  }

  /** A version that is not written: it repeats an earlier one or must not survive. */
  lemma SkipKeeps(merged: seq<Ver>, i: nat, minSnap: nat, bottom: bool, outputs: Level, open: seq<Ver>)
    requires Rewriting(merged, i, minSnap, bottom, outputs, open) && i < |merged|
    requires (exists j :: 0 <= j < i && merged[j] == merged[i]) || !Survives(SetOf(merged), minSnap, bottom, merged[i])
    ensures Rewriting(merged, i + 1, minSnap, bottom, outputs, open)
  {
    var out := OutSet(outputs, open);
    if merged[i] in out { InOutSurvives(merged, i, minSnap, bottom, out, merged[i]); }
    WrittenNext(merged, i, minSnap, bottom, out, out);
  }

  lemma RepeatSkips(merged: seq<Ver>, i: nat, minSnap: nat, bottom: bool, outputs: Level, open: seq<Ver>)
    requires Rewriting(merged, i, minSnap, bottom, outputs, open) && i < |merged| && Functional(SetOf(merged))
    requires LastOf(outputs, open).Some? && LastOf(outputs, open).value.key == merged[i].key && LastOf(outputs, open).value.num == merged[i].num
    ensures Rewriting(merged, i + 1, minSnap, bottom, outputs, open)
  {
    var j := LastOfWritten(merged, i, minSnap, bottom, outputs, open);
    assert merged[j] in SetOf(merged) && merged[i] in SetOf(merged);
    SkipKeeps(merged, i, minSnap, bottom, outputs, open);
  }

  lemma AddKeeps(merged: seq<Ver>, i: nat, minSnap: nat, bottom: bool, outputs: Level, open: seq<Ver>)
    requires Rewriting(merged, i, minSnap, bottom, outputs, open) && i < |merged| && Ascending(merged)
    requires LastOf(outputs, open).Some? ==> !(LastOf(outputs, open).value.key == merged[i].key && LastOf(outputs, open).value.num == merged[i].num)
    requires Survives(SetOf(merged), minSnap, bottom, merged[i])
    ensures Rewriting(merged, i + 1, minSnap, bottom, outputs, open + [merged[i]])
    ensures LastOf(outputs, open + [merged[i]]) == Some(merged[i])
  {
    var x := merged[i];
    if open != [] {
      var j := LastOfWritten(merged, i, minSnap, bottom, outputs, open);
      assert NotAfter(merged[j], merged[i]);
    }
    SortedAppend(open, x);
    assert SetOf(open + [x]) == SetOf(open) + {x};
    WrittenNext(merged, i, minSnap, bottom, OutSet(outputs, open), OutSet(outputs, open + [x]));
  }

  /** Closing the open table at a key boundary. */
  lemma RotateKeeps(merged: seq<Ver>, i: nat, minSnap: nat, bottom: bool, outputs: Level, open: seq<Ver>, id: nat, bytes: nat)
    requires Rewriting(merged, i, minSnap, bottom, outputs, open) && open != [] && Ascending(merged)
    requires 0 < i < |merged| ==> merged[i - 1].key != merged[i].key
    ensures Rewriting(merged, i, minSnap, bottom, outputs + [Table(id, open, bytes)], [])
    ensures OutSet(outputs + [Table(id, open, bytes)], []) == OutSet(outputs, open)
    ensures LastOf(outputs + [Table(id, open, bytes)], []) == LastOf(outputs, open)
  {
    CloseTable(outputs, open, id, bytes);
    var j := LastOfWritten(merged, i, minSnap, bottom, outputs, open);
    forall l | i <= l < |merged| ensures Less(open[|open| - 1].key, merged[l].key) {
      KeyGrows(merged, j, i - 1, i, l);
    }
  }

  /** A key boundary between `b` and `c` separates everything before it from everything after it. */
  lemma KeyGrows(merged: seq<Ver>, a: nat, b: nat, c: nat, d: nat)
    requires Ascending(merged) && a <= b < c <= d < |merged| && merged[b].key != merged[c].key
    ensures Less(merged[a].key, merged[d].key)
  {
    assert NotAfter(merged[b], merged[c]);
    if a < b { assert NotAfter(merged[a], merged[b]); }
    if c < d { assert NotAfter(merged[c], merged[d]); }
    if merged[a].key != merged[b].key { LessTransitive(merged[a].key, merged[b].key, merged[c].key); }
    if merged[c].key != merged[d].key { LessTransitive(merged[a].key, merged[c].key, merged[d].key); }
  }

  lemma NewKeyFresh(merged: seq<Ver>, i: nat, minSnap: nat)
    requires Ascending(merged) && i < |merged| && (i > 0 ==> merged[i - 1].key != merged[i].key)
    ensures !SeenBase(merged, i, merged[i].key, minSnap)
  {
    forall j | 0 <= j < i ensures merged[j].key != merged[i].key {
      KeyGrows(merged, j, i - 1, i, i);
      LessIrreflexive(merged[i].key);
    }
  }

  /** Whether the loop has already met the baseline of the key it is in. */
  ghost predicate KeyState(merged: seq<Ver>, i: nat, minSnap: nat, cur: Option<Bytes>, kept: bool)
    requires i <= |merged|
  {
    && (i == 0 ==> cur.None?) && (i > 0 ==> cur == Some(merged[i - 1].key))
    && (cur.Some? ==> (kept <==> SeenBase(merged, i, cur.value, minSnap)))
  }

  /** A repeated version does not change whether a baseline was met. */
  lemma RepeatSeen(merged: seq<Ver>, i: nat, minSnap: nat, bottom: bool, outputs: Level, open: seq<Ver>)
    requires Rewriting(merged, i, minSnap, bottom, outputs, open) && i < |merged|
    requires LastOf(outputs, open).Some? && LastOf(outputs, open).value.key == merged[i].key && LastOf(outputs, open).value.num == merged[i].num
    ensures SeenBase(merged, i + 1, merged[i].key, minSnap) == SeenBase(merged, i, merged[i].key, minSnap)
  {
    var j := LastOfWritten(merged, i, minSnap, bottom, outputs, open);
  }

  /** Whether a version is dropped, and whether its key's baseline has been met after it. */
  function Decide(x: Ver, lastWritten: Option<(Bytes, nat)>, kept: bool, minSnap: nat, bottom: bool): (bool, bool) {
    if lastWritten == Some((x.key, x.num)) then (true, kept)
    else if x.num > minSnap then (false, kept)
    else if kept then (true, true)
    else (x.value.None? && bottom, true)
  }

  lemma DecideRight(merged: seq<Ver>, i: nat, minSnap: nat, bottom: bool, outputs: Level, open: seq<Ver>, kept: bool)
    requires Rewriting(merged, i, minSnap, bottom, outputs, open) && Ascending(merged) && Functional(SetOf(merged)) && i < |merged|
    requires kept <==> SeenBase(merged, i, merged[i].key, minSnap)
    ensures var (drop, kept2) := Decide(merged[i], Stamp(LastOf(outputs, open)), kept, minSnap, bottom);
            && KeyState(merged, i + 1, minSnap, Some(merged[i].key), kept2)
            && (drop ==> Rewriting(merged, i + 1, minSnap, bottom, outputs, open))
            && (!drop ==> Rewriting(merged, i + 1, minSnap, bottom, outputs, open + [merged[i]])
                          && LastOf(outputs, open + [merged[i]]) == Some(merged[i]))
  {
    var x, last := merged[i], Stamp(LastOf(outputs, open));
    if last == Some((x.key, x.num)) {
      RepeatSkips(merged, i, minSnap, bottom, outputs, open);
      RepeatSeen(merged, i, minSnap, bottom, outputs, open);
    } else if x.num <= minSnap && kept {
      ShadowedByBase(merged, i, minSnap, bottom);
      SkipKeeps(merged, i, minSnap, bottom, outputs, open);
    } else {
      if x.num <= minSnap { FreshBase(merged, i, minSnap); }
      if x.num <= minSnap && x.value.None? && bottom {
        SkipKeeps(merged, i, minSnap, bottom, outputs, open);
      } else {
        AddKeeps(merged, i, minSnap, bottom, outputs, open);
      }
    }
  }

  /** The tables written so far are numbered from `firstId` and sized by `size`. */
  predicate Numbered(outputs: Level, firstId: nat, size: seq<Ver> -> nat) {
    forall j :: 0 <= j < |outputs| ==> outputs[j].id == firstId + j && outputs[j].bytes == size(outputs[j].entries)
  }

  /** The loop's variables: closed tables, the open one with its id, and what it knows of the stream. */
  datatype Writer = Writer(outputs: Level, open: seq<Ver>, openId: nat, nextId: nat, outBytes: nat,
                           curKey: Option<Bytes>, kept: bool, lastWritten: Option<(Bytes, nat)>)

  predicate Counted(st: Writer, firstId: nat, size: seq<Ver> -> nat) {
    && Numbered(st.outputs, firstId, size)
    && st.nextId == firstId + |st.outputs| + (if st.open != [] then 1 else 0)
    && (st.open != [] ==> st.openId == firstId + |st.outputs|)
  }

  ghost predicate WriterOk(merged: seq<Ver>, i: nat, minSnap: nat, bottom: bool, firstId: nat, size: seq<Ver> -> nat, st: Writer) {
    var tables := Rewriting(merged, i, minSnap, bottom, st.outputs, st.open);
    var place := i <= |merged| && KeyState(merged, i, minSnap, st.curKey, st.kept);
    tables && place && st.lastWritten == Stamp(LastOf(st.outputs, st.open)) && Counted(st, firstId, size)
  }

  /** The bytes a table's versions are counted with. */
  function VerCost(x: Ver): nat { |x.key| + (if x.value.Some? then |x.value.value| else 0) + 17 }

  function Cost(es: seq<Ver>): nat { if es == [] then 0 else Cost(es[..|es| - 1]) + VerCost(es[|es| - 1]) }

  /** The table went on to another key only while it was below the target. */
  ghost predicate Lean(es: seq<Ver>, target: nat) {
    forall i :: 0 < i < |es| && es[i].key != es[i - 1].key ==> Cost(es[..i]) < target
  }

  /** Tables end at the first new key after they reach the target: all but the last reach it, none takes another key then. */
  ghost predicate Split(outputs: Level, target: nat) {
    && (forall j :: 0 <= j < |outputs| ==> Lean(outputs[j].entries, target))
    && forall j :: 0 <= j < |outputs| - 1 ==> Cost(outputs[j].entries) >= target
  }

  ghost predicate Packed(st: Writer, target: nat) {
    var closed := forall j :: 0 <= j < |st.outputs| ==> Lean(st.outputs[j].entries, target) && Cost(st.outputs[j].entries) >= target;
    var counted := st.outBytes == Cost(st.open) && Lean(st.open, target);
    var room := st.open != [] && st.curKey != Some(st.open[|st.open| - 1].key) ==> st.outBytes < target;
    closed && counted && room
  }

  lemma PackedRotated(st: Writer, target: nat, size: seq<Ver> -> nat)
    requires Packed(st, target) && st.outBytes >= target
    ensures Packed(Rotated(st, size), target)
  {}

  /** A version joins the open table, which starts when there is none. */
  function Added(st: Writer, x: Ver): Writer {
    var st1 := if st.open == [] then st.(openId := st.nextId, nextId := st.nextId + 1) else st;
    st1.(outBytes := st1.outBytes + VerCost(x), open := st1.open + [x], lastWritten := Some((x.key, x.num)))
  }

  lemma PackedAdd(st: Writer, target: nat, x: Ver)
    requires Packed(st, target) && st.curKey == Some(x.key)
    ensures Packed(Added(st, x), target)
  {
    var open := st.open + [x];
    assert open[..|st.open|] == st.open;
    forall i | 0 < i < |open| && open[i].key != open[i - 1].key ensures Cost(open[..i]) < target {
      if i < |st.open| { assert open[..i] == st.open[..i]; }
    }
  }

  lemma PackedFinished(st: Writer, target: nat, size: seq<Ver> -> nat)
    requires Packed(st, target)
    ensures Split(Rotated(st, size).outputs, target)
  {}

  /** Ends the open table, if there is one. */
  function Rotated(st: Writer, size: seq<Ver> -> nat): Writer {
    if st.open == [] then st.(outBytes := 0)
    else st.(outputs := st.outputs + [Table(st.openId, st.open, size(st.open))], open := [], outBytes := 0)
  }

  lemma RotatedOk(merged: seq<Ver>, i: nat, minSnap: nat, bottom: bool, firstId: nat, size: seq<Ver> -> nat, st: Writer)
    requires Rewriting(merged, i, minSnap, bottom, st.outputs, st.open) && Ascending(merged)
    requires 0 < i < |merged| ==> merged[i - 1].key != merged[i].key
    requires Counted(st, firstId, size)
    ensures var st2 := Rotated(st, size);
            && Rewriting(merged, i, minSnap, bottom, st2.outputs, st2.open) && st2.open == []
            && LastOf(st2.outputs, st2.open) == LastOf(st.outputs, st.open) && Counted(st2, firstId, size)
  {
    if st.open != [] { RotateKeeps(merged, i, minSnap, bottom, st.outputs, st.open, st.openId, size(st.open)); }
  }

  /** Before a version of a new key the baseline is unmet, and a full table ends. */
  method Enter(ghost merged: seq<Ver>, ghost i: nat, ghost minSnap: nat, ghost bottom: bool, target: nat, ghost firstId: nat,
               size: seq<Ver> -> nat, st: Writer, x: Ver) returns (st2: Writer)
    requires Ascending(merged) && i < |merged| && x == merged[i] && WriterOk(merged, i, minSnap, bottom, firstId, size, st)
    requires Packed(st, target)
    ensures Packed(st2, target)
    ensures Rewriting(merged, i, minSnap, bottom, st2.outputs, st2.open)
    ensures st2.curKey == Some(x.key) && (st2.kept <==> SeenBase(merged, i, x.key, minSnap))
    ensures st2.lastWritten == Stamp(LastOf(st2.outputs, st2.open)) && Counted(st2, firstId, size)
  {
    st2 := st;
    if st.curKey != Some(x.key) {
      NewKeyFresh(merged, i, minSnap);
      st2 := st2.(curKey := Some(x.key), kept := false);
      if st.outBytes >= target {
        RotatedOk(merged, i, minSnap, bottom, firstId, size, st2);
        PackedRotated(st, target, size);
        st2 := Rotated(st2, size);
      }
    }
  }

  /** One version of the merged stream. */
  method Feed(ghost merged: seq<Ver>, ghost i: nat, minSnap: nat, bottom: bool, target: nat, ghost firstId: nat,
              size: seq<Ver> -> nat, st: Writer, x: Ver) returns (st2: Writer)
    requires Ascending(merged) && Functional(SetOf(merged)) && i < |merged| && x == merged[i]
    requires WriterOk(merged, i, minSnap, bottom, firstId, size, st) && Packed(st, target)
    ensures WriterOk(merged, i + 1, minSnap, bottom, firstId, size, st2) && Packed(st2, target)
  {
    st2 := Enter(merged, i, minSnap, bottom, target, firstId, size, st, x);
    DecideRight(merged, i, minSnap, bottom, st2.outputs, st2.open, st2.kept);
    var (drop, kept) := Decide(x, st2.lastWritten, st2.kept, minSnap, bottom);
    st2 := st2.(kept := kept);
    if !drop {
      PackedAdd(st2, target, x);
      st2 := Added(st2, x);
    }
  }

  function Fresh(firstId: nat): Writer { Writer([], [], 0, firstId, 0, None, false, None) }

  lemma FreshOk(merged: seq<Ver>, minSnap: nat, bottom: bool, firstId: nat, size: seq<Ver> -> nat)
    ensures WriterOk(merged, 0, minSnap, bottom, firstId, size, Fresh(firstId))
  {
    assert OutSet([], []) == {};
    assert Written(merged, 0, minSnap, bottom, OutSet([], []));
  }

  lemma FinishedOk(merged: seq<Ver>, minSnap: nat, bottom: bool, firstId: nat, size: seq<Ver> -> nat, st: Writer)
    requires WriterOk(merged, |merged|, minSnap, bottom, firstId, size, st) && Ascending(merged)
    ensures var st2 := Rotated(st, size);
            && TablesOk(st2.outputs) && Disjoint(st2.outputs) && Numbered(st2.outputs, firstId, size)
            && LevelSet(st2.outputs) == Survivors(SetOf(merged), minSnap, bottom)
            && st2.nextId == firstId + |st2.outputs|
  {
    RotatedOk(merged, |merged|, minSnap, bottom, firstId, size, st);
    var st2 := Rotated(st, size);
    assert OutSet(st2.outputs, []) == LevelSet(st2.outputs);
    WrittenAll(merged, minSnap, bottom, LevelSet(st2.outputs));
  }

  /** Rewrites the merged inputs: the tables written hold exactly the survivors, and are in key order
      with no key in two of them. */
  method Rewrite(merged: seq<Ver>, minSnap: nat, bottom: bool, target: nat, firstId: nat, size: seq<Ver> -> nat)
    returns (outputs: Level, nextId: nat)
    requires Ascending(merged) && Functional(SetOf(merged))
    ensures TablesOk(outputs) && Disjoint(outputs)
    ensures LevelSet(outputs) == Survivors(SetOf(merged), minSnap, bottom)
    ensures nextId == firstId + |outputs| && Numbered(outputs, firstId, size) && Split(outputs, target)
  {
    var st := Fresh(firstId);
    FreshOk(merged, minSnap, bottom, firstId, size);
    for i := 0 to |merged|
      invariant WriterOk(merged, i, minSnap, bottom, firstId, size, st) && Packed(st, target)
    {
      st := Feed(merged, i, minSnap, bottom, target, firstId, size, st, merged[i]);
    }
    FinishedOk(merged, minSnap, bottom, firstId, size, st);
    PackedFinished(st, target, size);
    st := Rotated(st, size);
    outputs, nextId := st.outputs, st.nextId;
  }
}
