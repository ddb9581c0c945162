/** Data blocks of a table file: the entry encoding and its decoder (crates/storage/src/sstable.rs:85-117, 299-334). */
module SsBlocks {
  import opened Prelude
  import opened Codec
  import opened LsmSpec

  /** Lengths and numbers fit the fields they are written to. */
  predicate Fits(x: Ver) {
    |x.key| < Pow256(4) && x.num < Pow256(8) && (x.value.Some? ==> |x.value.value| < Pow256(4))
  }

  function EncodeValue(v: Option<Bytes>): Bytes {
    if v.Some? then [1] + Le(|v.value|, 4) + v.value else [0] + Le(0, 4)
  }

  function EncodeEntry(x: Ver): (r: Bytes)
    ensures |r| > 0
  {
    Le(|x.key|, 4) + x.key + Le(x.num, 8) + EncodeValue(x.value)
  }

  function Encodings(es: seq<Ver>): seq<Bytes> { seq(|es|, i requires 0 <= i < |es| => EncodeEntry(es[i])) }

  function EncodeBlock(es: seq<Ver>): Bytes { Join(Encodings(es)) }

  /** One entry parsed at an offset, with the offset behind it. */
  datatype Parsed = Truncated | Entry(x: Ver, next: nat)

  function ParseValue(buf: Bytes, key: Bytes, num: nat, off: nat): (r: Parsed)
    requires off < |buf|
    ensures r.Entry? ==> off < r.next <= |buf|
  {
    if off + 5 > |buf| then Truncated
    else
      var vlen := FromLe(buf[off + 1..off + 5]);
      if buf[off] == 1 then
        if off + 5 + vlen > |buf| then Truncated
        else Entry(Ver(key, num, Some(buf[off + 5..off + 5 + vlen])), off + 5 + vlen)
      else Entry(Ver(key, num, None), off + 5)
  }

  function ParseAt(buf: Bytes, off: nat): (r: Parsed)
    requires off < |buf|
    ensures r.Entry? ==> off < r.next <= |buf|
  {
    if off + 4 > |buf| then Truncated
    else
      var klen := FromLe(buf[off..off + 4]);
      if off + 4 + klen + 9 > |buf| then Truncated
      else ParseValue(buf, buf[off + 4..off + 4 + klen], FromLe(buf[off + 4 + klen..off + 12 + klen]), off + 12 + klen)
  }

  function DecodeFrom(buf: Bytes, off: nat): Option<seq<Ver>>
    requires off <= |buf|
    decreases |buf| - off
  {
    if off == |buf| then Some([])
    else match ParseAt(buf, off)
      case Truncated => None
      case Entry(x, next) =>
        var rest := DecodeFrom(buf, next);
        if rest.None? then None else Some([x] + rest.value)
  }

  // ------------------------------------------------------------- what a block holds

  /** The value field from `o` to `b`: a flag, a length and, for a live value, that many bytes. */
  predicate HoldsValue(buf: Bytes, v: Option<Bytes>, o: nat, b: nat) {
    && o + 5 <= b <= |buf| && (buf[o] == 1 <==> v.Some?)
    && if v.Some? then FromLe(buf[o + 1..o + 5]) == |v.value| && b == o + 5 + |v.value| && buf[o + 5..b] == v.value else b == o + 5
  }

  /** The bytes from `a` to `b` are an entry: key length, key, number and value field. */
  predicate HoldsEntry(buf: Bytes, x: Ver, a: nat, b: nat) {
    var o := a + 12 + |x.key|;
    && o + 5 <= b <= |buf| && FromLe(buf[a..a + 4]) == |x.key| && buf[a + 4..a + 4 + |x.key|] == x.key
    && FromLe(buf[a + 4 + |x.key|..o]) == x.num && HoldsValue(buf, x.value, o, b)
  }

  /** The whole block is these entries, one behind the other. */
  ghost predicate Holds(buf: Bytes, es: seq<Ver>) {
    exists offs: seq<nat> ::
      && |offs| == |es| + 1 && offs[0] == 0 && offs[|es|] == |buf|
      && forall j :: 0 <= j < |es| ==> HoldsEntry(buf, es[j], offs[j], offs[j + 1])
  }

  lemma ValueExact(buf: Bytes, key: Bytes, num: nat, o: nat, x: Ver, b: nat)
    requires o < |buf|
    ensures ParseValue(buf, key, num, o) == Entry(x, b) <==> x.key == key && x.num == num && HoldsValue(buf, x.value, o, b)
  {}

  lemma ParseExact(buf: Bytes, a: nat, x: Ver, b: nat)
    requires a < |buf|
    ensures ParseAt(buf, a) == Entry(x, b) <==> HoldsEntry(buf, x, a, b)
  {
    if a + 4 <= |buf| {
      var n := FromLe(buf[a..a + 4]);
      if a + 4 + n + 9 <= |buf| {
        ValueExact(buf, buf[a + 4..a + 4 + n], FromLe(buf[a + 4 + n..a + 12 + n]), a + 12 + n, x, b);
      }
    }
  }

  lemma {:induction false} DecodedHeld(buf: Bytes, off: nat) returns (offs: seq<nat>)
    requires off <= |buf| && DecodeFrom(buf, off).Some?
    ensures var es := DecodeFrom(buf, off).value;
            && |offs| == |es| + 1 && offs[0] == off && offs[|es|] == |buf|
            && forall j :: 0 <= j < |es| ==> HoldsEntry(buf, es[j], offs[j], offs[j + 1])
    decreases |buf| - off
  {
    if off == |buf| {
      offs := [off];
    } else {
      var p := ParseAt(buf, off);
      ParseExact(buf, off, p.x, p.next);
      var tail := DecodedHeld(buf, p.next);
      offs := [off] + tail;
    }
  }

  /** Decoding gives exactly the entries the block holds, and nothing when it does not hold a row of entries. */
  lemma DecodeExact(buf: Bytes, es: seq<Ver>)
    ensures DecodeFrom(buf, 0) == Some(es) <==> Holds(buf, es)
  {
    if DecodeFrom(buf, 0) == Some(es) {
      var offs := DecodedHeld(buf, 0);
    }
    if Holds(buf, es) {
      var offs: seq<nat> :| && |offs| == |es| + 1 && offs[0] == 0 && offs[|es|] == |buf|
        && forall j :: 0 <= j < |es| ==> HoldsEntry(buf, es[j], offs[j], offs[j + 1]);
      forall j | 0 <= j < |es| ensures Parses(buf, es[j], offs[j], offs[j + 1]) { ParseExact(buf, offs[j], es[j], offs[j + 1]); }
      DecodeRun(buf, es, offs, 0);
      assert es[0..] == es;
    }
  }

  /** The decoder's loop: nothing when an entry is cut off. */
  method DecodeBlock(buf: Bytes) returns (r: Option<seq<Ver>>)
    ensures r == DecodeFrom(buf, 0) && forall es :: Holds(buf, es) <==> r == Some(es)
  {
    forall es ensures Holds(buf, es) <==> DecodeFrom(buf, 0) == Some(es) { DecodeExact(buf, es); }
    var out: seq<Ver> := [];
    var off := 0;
    assert forall s: seq<Ver> :: [] + s == s;
    while off < |buf|
      invariant off <= |buf|
      invariant DecodeFrom(buf, 0) == (var rest := DecodeFrom(buf, off); if rest.None? then None else Some(out + rest.value))
      decreases |buf| - off
    {
      match ParseAt(buf, off)
      case Truncated => return None;
      case Entry(x, next) =>
        assert forall s: seq<Ver> :: out + ([x] + s) == (out + [x]) + s;
        out, off := out + [x], next;
    }
    assert out + [] == out;
    r := Some(out);
  }

  // ------------------------------------------------------------- round trip

  lemma ParseValueBack(buf: Bytes, key: Bytes, num: nat, off: nat, v: Option<Bytes>)
    requires off + |EncodeValue(v)| <= |buf| && buf[off..off + |EncodeValue(v)|] == EncodeValue(v)
    requires v.Some? ==> |v.value| < Pow256(4)
    ensures off < |buf| && ParseValue(buf, key, num, off) == Entry(Ver(key, num, v), off + |EncodeValue(v)|)
  {
    var e := EncodeValue(v);
    SliceOf(buf, off, e, 0, 1);
    assert buf[off..off + 1][0] == buf[off] && e[0..1][0] == e[0];
    SliceOf(buf, off, e, 1, 5);
    if v.Some? {
      assert e[1..5] == Le(|v.value|, 4);
      LeExact(|v.value|, 4);
      SliceOf(buf, off, e, 5, |e|);
      assert e[5..|e|] == v.value;
    }
  }

  lemma EntryFields(x: Ver)
    ensures var e, n := EncodeEntry(x), |x.key|;
            && |e| == 12 + n + |EncodeValue(x.value)|
            && e[0..4] == Le(n, 4) && e[4..4 + n] == x.key && e[4 + n..12 + n] == Le(x.num, 8) && e[12 + n..|e|] == EncodeValue(x.value)
  {}

  lemma ParseBack(buf: Bytes, off: nat, x: Ver)
    requires Fits(x) && off + |EncodeEntry(x)| <= |buf| && buf[off..off + |EncodeEntry(x)|] == EncodeEntry(x)
    ensures off < |buf| && ParseAt(buf, off) == Entry(x, off + |EncodeEntry(x)|)
  {
    EntryFields(x);
    LeExact(|x.key|, 4);
    LeExact(x.num, 8);
    ParseFields(buf, off, EncodeEntry(x), x);
  }

  /** Parsing at `a` gives `x` and moves on to `b`. */
  predicate Parses(buf: Bytes, x: Ver, a: nat, b: nat) { a < |buf| && b <= |buf| && ParseAt(buf, a) == Entry(x, b) }

  lemma ParseLies(buf: Bytes, x: Ver, a: nat, b: nat)
    requires Fits(x) && Lies(buf, EncodeEntry(x), a, b)
    ensures Parses(buf, x, a, b)
  {
    ParseBack(buf, a, x);
  }

  lemma ParseFields(buf: Bytes, off: nat, e: Bytes, x: Ver)
    requires off + |e| <= |buf| && buf[off..off + |e|] == e && |e| == 12 + |x.key| + |EncodeValue(x.value)|
    requires FromLe(e[0..4]) == |x.key| && e[4..4 + |x.key|] == x.key && FromLe(e[4 + |x.key|..12 + |x.key|]) == x.num
    requires e[12 + |x.key|..|e|] == EncodeValue(x.value) && (x.value.Some? ==> |x.value.value| < Pow256(4))
    ensures off < |buf| && ParseAt(buf, off) == Entry(x, off + |e|)
  {
    var n := |x.key|;
    SliceOf(buf, off, e, 0, 4);
    SliceOf(buf, off, e, 4, 4 + n);
    SliceOf(buf, off, e, 4 + n, 12 + n);
    SliceOf(buf, off, e, 12 + n, |e|);
    ParseValueBack(buf, x.key, x.num, off + 12 + n, x.value);
  }

  lemma DecodeStep(buf: Bytes, off: nat, x: Ver, next: nat, rest: seq<Ver>)
    requires off < |buf| && ParseAt(buf, off) == Entry(x, next) && next <= |buf| && DecodeFrom(buf, next) == Some(rest)
    ensures DecodeFrom(buf, off) == Some([x] + rest)
  {}

  /** Entries that parse one behind the other decode to themselves. */
  lemma {:induction false} DecodeRun(buf: Bytes, es: seq<Ver>, offs: seq<nat>, i: nat)
    requires |offs| == |es| + 1 && i <= |es| && offs[|es|] == |buf|
    requires forall j :: 0 <= j < |es| ==> Parses(buf, es[j], offs[j], offs[j + 1])
    ensures offs[i] <= |buf| && DecodeFrom(buf, offs[i]) == Some(es[i..])
    decreases |es| - i
  {
    if i < |es| {
      DecodeRun(buf, es, offs, i + 1);
      assert Parses(buf, es[i], offs[i], offs[i + 1]);
      DecodeStep(buf, offs[i], es[i], offs[i + 1], es[i + 1..]);
      assert es[i..] == [es[i]] + es[i + 1..];
    }
  }

  /** Decoding undoes encoding. */
  lemma DecodeBack(es: seq<Ver>)
    requires forall j :: 0 <= j < |es| ==> Fits(es[j])
    ensures DecodeFrom(EncodeBlock(es), 0) == Some(es)
  {
    var offs := Layout(Encodings(es));
    forall j | 0 <= j < |es| ensures Parses(EncodeBlock(es), es[j], offs[j], offs[j + 1]) {
      assert Encodings(es)[j] == EncodeEntry(es[j]);
      ParseLies(EncodeBlock(es), es[j], offs[j], offs[j + 1]);
    }
    DecodeRun(EncodeBlock(es), es, offs, 0);
    assert es[0..] == es;
  }
}
