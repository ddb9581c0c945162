/** The write-ahead log as bytes (crates/storage/src/wal.rs).

    `enc` and `dec` stand for the serializer of a batch and `crc` for the checksum; nothing is assumed of
    `crc` except that it fits 32 bits, and of the pair that `dec` undoes `enc`. */
module Wal {
  import opened Prelude
  import opened Codec
  import opened LsmState

  datatype Format = Format(enc: Batch -> Bytes, dec: Bytes -> Option<Batch>, crc: Bytes -> nat)

  /** The batch can be written to a frame: its payload fits the length field. */
  ghost predicate Framable(f: Format, b: Batch) {
    && |f.enc(b)| < Pow256(4) && f.crc(f.enc(b)) < Pow256(4) && f.dec(f.enc(b)) == Some(b)
  }

  ghost predicate AllFramable(f: Format, bs: seq<Batch>) { forall i :: 0 <= i < |bs| ==> Framable(f, bs[i]) }

  function Frame(f: Format, b: Batch): Bytes { Le(|f.enc(b)|, 4) + Le(f.crc(f.enc(b)), 4) + f.enc(b) }

  function Frames(f: Format, bs: seq<Batch>): seq<Bytes> { seq(|bs|, i requires 0 <= i < |bs| => Frame(f, bs[i])) }

  function Log(f: Format, bs: seq<Batch>): Bytes { Join(Frames(f, bs)) }

  // ------------------------------------------------------------- reading frames

  datatype Torn = Torn | Whole(batch: Batch, next: nat)

  /** The frame at an offset, or a torn tail: short header, short payload, wrong checksum or undecodable. */
  function FrameAt(f: Format, data: Bytes, off: nat): (r: Torn)
    requires off <= |data|
    ensures r.Whole? ==> off < r.next <= |data|
  {
    if off + 8 > |data| then Torn
    else
      var len := FromLe(data[off..off + 4]);
      if off + 8 + len > |data| then Torn
      else
        var payload := data[off + 8..off + 8 + len];
        if f.crc(payload) != FromLe(data[off + 4..off + 8]) then Torn
        else match f.dec(payload)
          case None => Torn
          case Some(b) => Whole(b, off + 8 + len)
  }

  /** The batches of the valid prefix from `off` on. */
  function ReplayFrom(f: Format, data: Bytes, off: nat): seq<Batch>
    requires off <= |data|
    decreases |data| - off
  {
    match FrameAt(f, data, off)
    case Torn => []
    case Whole(b, next) => [b] + ReplayFrom(f, data, next)
  }

  /** Where the valid prefix ends. */
  function ValidEnd(f: Format, data: Bytes, off: nat): (r: nat)
    requires off <= |data|
    ensures r <= |data|
    decreases |data| - off
  {
    match FrameAt(f, data, off)
    case Torn => off
    case Whole(_, next) => ValidEnd(f, data, next)
  }

  // ------------------------------------------------------------- what a replay returns

  /** A frame fills the bytes from `a` to `b`: the header gives the payload's length and its checksum, and the payload is
      the batch. */
  ghost predicate Sound(f: Format, data: Bytes, a: nat, b: nat, batch: Batch) {
    && a + 8 <= b <= |data| && FromLe(data[a..a + 4]) == b - a - 8
    && FromLe(data[a + 4..a + 8]) == f.crc(data[a + 8..b]) && f.dec(data[a + 8..b]) == Some(batch)
  }

  /** The batches are the payloads of frames that follow each other without a gap, from the first offset to the last. */
  ghost predicate Chained(f: Format, data: Bytes, bs: seq<Batch>, offs: seq<nat>) {
    |offs| == |bs| + 1 && forall j :: 0 <= j < |bs| ==> Sound(f, data, offs[j], offs[j + 1], bs[j])
  }

  /** No frame starts at `a`: the header or the payload runs past the end, the checksum differs or the payload does not
      decode. */
  ghost predicate NoFrame(f: Format, data: Bytes, a: nat) { forall b: nat, batch: Batch :: !Sound(f, data, a, b, batch) }

  /** What a replay may return, whoever computes it: a chain of sound frames from the start that cannot be extended. */
  ghost predicate Recovers(f: Format, data: Bytes, bs: seq<Batch>, end: nat) {
    exists offs: seq<nat> :: Chained(f, data, bs, offs) && offs[0] == 0 && offs[|bs|] == end && NoFrame(f, data, end)
  }

  lemma FrameAtSound(f: Format, data: Bytes, off: nat)
    requires off <= |data|
    ensures FrameAt(f, data, off).Torn? ==> NoFrame(f, data, off)
    ensures FrameAt(f, data, off).Whole? ==> Sound(f, data, off, FrameAt(f, data, off).next, FrameAt(f, data, off).batch)
  {}

  lemma {:induction false} ReplayChained(f: Format, data: Bytes, off: nat) returns (offs: seq<nat>)
    requires off <= |data|
    ensures var bs := ReplayFrom(f, data, off);
            Chained(f, data, bs, offs) && offs[0] == off && offs[|bs|] == ValidEnd(f, data, off) && NoFrame(f, data, ValidEnd(f, data, off))
    decreases |data| - off
  {
    FrameAtSound(f, data, off);
    var r := FrameAt(f, data, off);
    if r.Torn? {
      offs := [off];
    } else {
      var tail := ReplayChained(f, data, r.next);
      offs := [off] + tail;
      ChainFront(f, data, ReplayFrom(f, data, r.next), tail, off, r.batch);
    }
  }

  lemma ChainFront(f: Format, data: Bytes, bs: seq<Batch>, offs: seq<nat>, a: nat, b: Batch)
    requires Chained(f, data, bs, offs) && Sound(f, data, a, offs[0], b)
    ensures Chained(f, data, [b] + bs, [a] + offs)
  {
    forall j | 0 <= j < |bs| + 1 ensures Sound(f, data, ([a] + offs)[j], ([a] + offs)[j + 1], ([b] + bs)[j]) {
      if j > 0 { assert Sound(f, data, offs[j - 1], offs[j], bs[j - 1]); }
    }
  }

  /** The replay recovers, and nothing else does. */
  lemma ReplayRecovers(f: Format, data: Bytes)
    ensures Recovers(f, data, ReplayFrom(f, data, 0), ValidEnd(f, data, 0))
  {
    var offs := ReplayChained(f, data, 0);
  }

  lemma EmptyChain(f: Format, data: Bytes, bs: seq<Batch>, offs: seq<nat>)
    requires Chained(f, data, bs, offs) && NoFrame(f, data, offs[|bs|])
    ensures bs == [] <==> NoFrame(f, data, offs[0])
  {
    if bs != [] { assert Sound(f, data, offs[0], offs[1], bs[0]); }
  }

  lemma {:induction false} ChainsAgree(f: Format, data: Bytes, bs: seq<Batch>, offs: seq<nat>, cs: seq<Batch>, ends: seq<nat>)
    requires Chained(f, data, bs, offs) && Chained(f, data, cs, ends) && offs[0] == ends[0]
    requires NoFrame(f, data, offs[|bs|]) && NoFrame(f, data, ends[|cs|])
    ensures bs == cs && offs == ends
    decreases |bs|
  {
    EmptyChain(f, data, bs, offs);
    EmptyChain(f, data, cs, ends);
    if bs != [] {
      assert Sound(f, data, offs[0], offs[1], bs[0]) && Sound(f, data, ends[0], ends[1], cs[0]);
      ChainsAgree(f, data, bs[1..], offs[1..], cs[1..], ends[1..]);
      assert bs == [bs[0]] + bs[1..] && cs == [cs[0]] + cs[1..] && offs == [offs[0]] + offs[1..] && ends == [ends[0]] + ends[1..];
    }
  }

  lemma RecoveryUnique(f: Format, data: Bytes, bs: seq<Batch>, end: nat)
    requires Recovers(f, data, bs, end)
    ensures bs == ReplayFrom(f, data, 0) && end == ValidEnd(f, data, 0)
  {
    var offs: seq<nat> :| Chained(f, data, bs, offs) && offs[0] == 0 && offs[|bs|] == end && NoFrame(f, data, end);
    var mine := ReplayChained(f, data, 0);
    ChainsAgree(f, data, bs, offs, ReplayFrom(f, data, 0), mine);
  }

  class LogFile {
    const f: Format
    var data: Bytes

    constructor (fmt: Format, d: Bytes)
      ensures f == fmt && data == d
    {
      f, data := fmt, d;
    }

    method Append(b: Batch)
      modifies this
      ensures data == old(data) + Frame(f, b)
    {
      var payload := f.enc(b);
      data := data + Le(|payload|, 4) + Le(f.crc(payload), 4) + payload;
      assert data == old(data) + Frame(f, b);
    }

    method Reset()
      modifies this
      ensures data == []
    {
      data := [];
    }

    /** Replays the valid prefix and truncates the torn tail. */
    method Replay() returns (batches: seq<Batch>)
      modifies this
      ensures batches == ReplayFrom(f, old(data), 0) && data == old(data)[..ValidEnd(f, old(data), 0)]
      ensures |data| <= |old(data)| && Recovers(f, old(data), batches, |data|)
    {
      ReplayRecovers(f, data);
      batches := [];
      var off := 0;
      while true
        invariant off <= |data| && data == old(data)
        invariant ReplayFrom(f, data, 0) == batches + ReplayFrom(f, data, off) && ValidEnd(f, data, 0) == ValidEnd(f, data, off)
        decreases |data| - off
      {
        var frame := FrameAt(f, data, off);
        if frame.Torn? { break; }
        assert batches + ([frame.batch] + ReplayFrom(f, data, frame.next)) == (batches + [frame.batch]) + ReplayFrom(f, data, frame.next);
        batches, off := batches + [frame.batch], frame.next;
      }
      assert batches + [] == batches;
      if off < |data| { data := data[..off]; } else { assert data[..off] == data; }
    }
  }

  // ------------------------------------------------------------- a cut log

  lemma FrameFields(f: Format, b: Batch)
    requires Framable(f, b)
    ensures var e := Frame(f, b);
            && |e| == 8 + |f.enc(b)| && FromLe(e[0..4]) == |f.enc(b)| && FromLe(e[4..8]) == f.crc(f.enc(b)) && e[8..|e|] == f.enc(b)
  {
    LeExact(|f.enc(b)|, 4);
    LeExact(f.crc(f.enc(b)), 4);
    var e := Frame(f, b);
    assert e[0..4] == Le(|f.enc(b)|, 4) && e[4..8] == Le(f.crc(f.enc(b)), 4) && e[8..|e|] == f.enc(b);
  }

  lemma WholeFrame(f: Format, data: Bytes, off: nat, b: Batch)
    requires Framable(f, b) && off + |Frame(f, b)| <= |data| && data[off..off + |Frame(f, b)|] == Frame(f, b)
    ensures FrameAt(f, data, off) == Whole(b, off + |Frame(f, b)|)
  {
    var e := Frame(f, b);
    FrameFields(f, b);
    SliceOf(data, off, e, 0, 4);
    SliceOf(data, off, e, 4, 8);
    SliceOf(data, off, e, 8, |e|);
  }

  /** Cut anywhere inside a frame, even inside its header, the frame is torn. */
  lemma CutFrame(f: Format, data: Bytes, off: nat, b: Batch)
    requires Framable(f, b) && off <= |data| < off + |Frame(f, b)| && data[off..] == Frame(f, b)[..|data| - off]
    ensures FrameAt(f, data, off) == Torn
  {
    var e := Frame(f, b);
    FrameFields(f, b);
    if off + 8 <= |data| {
      assert data[off..off + 4] == data[off..][..4] == e[..|data| - off][..4] == e[0..4];
    }
  }

  /** How many whole frames a log cut at byte `n` still has. */
  function WholeFrames(f: Format, bs: seq<Batch>, n: nat): (m: nat)
    ensures m <= |bs| && Offset(Frames(f, bs), m) <= n
    ensures m < |bs| ==> n < Offset(Frames(f, bs), m + 1)
  {
    WholeFrom(f, bs, n, 0)
  }

  function WholeFrom(f: Format, bs: seq<Batch>, n: nat, i: nat): (m: nat)
    requires i <= |bs| && Offset(Frames(f, bs), i) <= n
    ensures i <= m <= |bs| && Offset(Frames(f, bs), m) <= n
    ensures m < |bs| ==> n < Offset(Frames(f, bs), m + 1)
    decreases |bs| - i
  {
    if i < |bs| && Offset(Frames(f, bs), i + 1) <= n then WholeFrom(f, bs, n, i + 1) else i
  }

  /** The frames of `bs` fill `log`, each from its offset to the next one. */
  ghost predicate Framed(f: Format, bs: seq<Batch>, log: Bytes, offs: seq<nat>) {
    && |offs| == |bs| + 1 && offs[|bs|] == |log|
    && forall j :: 0 <= j < |bs| ==> Framable(f, bs[j]) && Lies(log, Frame(f, bs[j]), offs[j], offs[j + 1])
  }

  /** Byte `n` lies behind exactly `m` whole frames. */
  ghost predicate CutsAfter(offs: seq<nat>, n: nat, m: nat) { m < |offs| && offs[m] <= n && (m < |offs| - 1 ==> n < offs[m + 1]) }

  /** A log cut at any byte replays exactly the whole frames before the cut, and its tail is cut off behind them. */
  lemma {:induction false} CutReplays(f: Format, bs: seq<Batch>, log: Bytes, offs: seq<nat>, n: nat, m: nat, i: nat)
    requires Framed(f, bs, log, offs) && CutsAfter(offs, n, m) && n <= |log| && i <= m
    ensures offs[i] <= n && ReplayFrom(f, log[..n], offs[i]) == bs[i..m] && ValidEnd(f, log[..n], offs[i]) == offs[m]
    decreases m - i
  {
    if i < m {
      CutReplays(f, bs, log, offs, n, m, i + 1);
      LiesInCut(log, Frame(f, bs[i]), offs[i], offs[i + 1], n);
      WholeFrame(f, log[..n], offs[i], bs[i]);
      assert bs[i..m] == [bs[i]] + bs[i + 1..m];
    } else if m < |bs| {
      CutShort(log, Frame(f, bs[m]), offs[m], offs[m + 1], n);
      CutFrame(f, log[..n], offs[m], bs[m]);
    }
  }

  lemma LiesInCut(log: Bytes, e: Bytes, a: nat, b: nat, n: nat)
    requires Lies(log, e, a, b) && b <= n <= |log|
    ensures a + |e| == b && log[..n][a..b] == e
  {
    assert log[..n][a..b] == log[a..b];
  }

  lemma CutShort(log: Bytes, e: Bytes, a: nat, b: nat, n: nat)
    requires Lies(log, e, a, b) && a <= n < b && n <= |log|
    ensures n < a + |e| && log[..n][a..] == e[..n - a]
  {
    assert log[..n][a..] == log[a..b][..n - a];
  }

  lemma FramedLog(f: Format, bs: seq<Batch>) returns (offs: seq<nat>)
    requires AllFramable(f, bs)
    ensures Framed(f, bs, Log(f, bs), offs) && offs[0] == 0
    ensures forall j :: 0 <= j <= |bs| ==> offs[j] == Offset(Frames(f, bs), j)
  {
    offs := Layout(Frames(f, bs));
    forall j | 0 <= j < |bs| ensures Framable(f, bs[j]) && Lies(Log(f, bs), Frame(f, bs[j]), offs[j], offs[j + 1]) {
      assert Frames(f, bs)[j] == Frame(f, bs[j]);
    }
  }

  /** The theorem from the start of the file. */
  lemma CutLog(f: Format, bs: seq<Batch>, n: nat)
    requires AllFramable(f, bs) && n <= |Log(f, bs)|
    ensures ReplayFrom(f, Log(f, bs)[..n], 0) == bs[..WholeFrames(f, bs, n)]
    ensures Log(f, bs)[..n][..ValidEnd(f, Log(f, bs)[..n], 0)] == Log(f, bs[..WholeFrames(f, bs, n)])
  {
    var m := WholeFrames(f, bs, n);
    var offs := FramedLog(f, bs);
    CutReplays(f, bs, Log(f, bs), offs, n, m, 0);
    PrefixLog(f, bs, m);
    CutPrefix(Log(f, bs), n, offs[m]);
  }

  lemma CutPrefix(log: Bytes, n: nat, k: nat)
    requires k <= n <= |log|
    ensures log[..n][..k] == log[..k]
  {}

  lemma PrefixLog(f: Format, bs: seq<Batch>, m: nat)
    requires m <= |bs|
    ensures Offset(Frames(f, bs), m) <= |Log(f, bs)| && Log(f, bs)[..Offset(Frames(f, bs), m)] == Log(f, bs[..m])
  {
    PrefixJoin(Frames(f, bs), m);
    assert Frames(f, bs)[..m] == Frames(f, bs[..m]);
  }

  // ------------------------------------------------------------- a spoilt tail

  /** Bytes behind a log stop the replay: they are too short for a header, give a length that runs past the end, or a
      checksum that is not the payload's, or a payload that does not decode. */
  predicate Spoilt(f: Format, tail: Bytes) {
    || |tail| < 8
    || 8 + FromLe(tail[0..4]) > |tail|
    || f.crc(tail[8..8 + FromLe(tail[0..4])]) != FromLe(tail[4..8])
    || f.dec(tail[8..8 + FromLe(tail[0..4])]).None?
  }

  lemma LiesSound(f: Format, log: Bytes, tail: Bytes, a: nat, b: nat, batch: Batch)
    requires Framable(f, batch) && Lies(log, Frame(f, batch), a, b)
    ensures Sound(f, log + tail, a, b, batch)
  {
    var data, e := log + tail, Frame(f, batch);
    FrameFields(f, batch);
    assert data[a..b] == log[a..b];
    SliceOf(data, a, e, 0, 4);
    SliceOf(data, a, e, 4, 8);
    SliceOf(data, a, e, 8, |e|);
  }

  lemma LogChained(f: Format, bs: seq<Batch>, tail: Bytes) returns (offs: seq<nat>)
    requires AllFramable(f, bs)
    ensures Chained(f, Log(f, bs) + tail, bs, offs) && offs[0] == 0 && offs[|bs|] == |Log(f, bs)|
  {
    var log := Log(f, bs);
    offs := FramedLog(f, bs);
    forall j | 0 <= j < |bs| ensures Sound(f, log + tail, offs[j], offs[j + 1], bs[j]) {
      LiesSound(f, log, tail, offs[j], offs[j + 1], bs[j]);
    }
  }

  lemma SpoiltNoFrame(f: Format, log: Bytes, tail: Bytes)
    ensures NoFrame(f, log + tail, |log|) <==> Spoilt(f, tail)
  {
    var data, a := log + tail, |log|;
    if |tail| >= 8 {
      var len := FromLe(tail[0..4]);
      assert data[a..a + 4] == tail[0..4] && data[a + 4..a + 8] == tail[4..8];
      if 8 + len <= |tail| {
        assert data[a + 8..a + 8 + len] == tail[8..8 + len];
        if !Spoilt(f, tail) { assert Sound(f, data, a, a + 8 + len, f.dec(tail[8..8 + len]).value); }
      }
    }
  }

  /** A log followed by any spoilt bytes replays to its batches, and is cut back to the log: a record whose checksum does
      not match is not returned, nor is anything behind it. */
  lemma SpoiltTail(f: Format, bs: seq<Batch>, tail: Bytes)
    requires AllFramable(f, bs)
    ensures Spoilt(f, tail) <==> ReplayFrom(f, Log(f, bs) + tail, 0) == bs
    ensures Spoilt(f, tail) ==> ValidEnd(f, Log(f, bs) + tail, 0) == |Log(f, bs)|
  {
    var data, log := Log(f, bs) + tail, Log(f, bs);
    var offs := LogChained(f, bs, tail);
    SpoiltNoFrame(f, log, tail);
    if Spoilt(f, tail) {
      assert Recovers(f, data, bs, |log|);
      RecoveryUnique(f, data, bs, |log|);
    } else if ReplayFrom(f, data, 0) == bs {
      var mine := ReplayChained(f, data, 0);
      ChainEnds(f, data, bs, offs, mine);
    }
  }

  lemma {:induction false} ChainEnds(f: Format, data: Bytes, bs: seq<Batch>, offs: seq<nat>, ends: seq<nat>)
    requires Chained(f, data, bs, offs) && Chained(f, data, bs, ends) && offs[0] == ends[0]
    ensures offs[|bs|] == ends[|bs|]
    decreases |bs|
  {
    if bs != [] {
      assert Sound(f, data, offs[0], offs[1], bs[0]) && Sound(f, data, ends[0], ends[1], bs[0]);
      ChainEnds(f, data, bs[1..], offs[1..], ends[1..]);
    }
  }

  lemma LogSnoc(f: Format, bs: seq<Batch>, b: Batch)
    ensures Log(f, bs + [b]) == Log(f, bs) + Frame(f, b)
  {
    var all := bs + [b];
    PrefixLog(f, all, |bs|);
    assert all[..|bs|] == bs && Frames(f, all)[|bs|] == Frame(f, b);
    var offs := Layout(Frames(f, all));
    assert Lies(Log(f, all), Frame(f, b), offs[|bs|], offs[|bs| + 1]);
  }

  lemma CutIsSpoilt(f: Format, b: Batch, n: nat)
    requires Framable(f, b) && n < |Frame(f, b)|
    ensures Spoilt(f, Frame(f, b)[..n])
  {
    FrameFields(f, b);
    if n >= 8 { assert Frame(f, b)[..n][0..4] == Frame(f, b)[0..4]; }
  }

  /** A crash while a batch is being appended: the log replays to all earlier batches, and to the new one
      only if its frame is complete. */
  lemma TornAppend(f: Format, bs: seq<Batch>, b: Batch, n: nat)
    requires AllFramable(f, bs) && Framable(f, b) && n <= |Frame(f, b)|
    ensures ReplayFrom(f, Log(f, bs) + Frame(f, b)[..n], 0) == if n == |Frame(f, b)| then bs + [b] else bs
  {
    if n < |Frame(f, b)| {
      CutIsSpoilt(f, b, n);
      SpoiltTail(f, bs, Frame(f, b)[..n]);
    } else {
      LogSnoc(f, bs, b);
      assert Log(f, bs) + Frame(f, b)[..n] == Log(f, bs + [b]) + [];
      SpoiltTail(f, bs + [b], []);
    }
  }
}
