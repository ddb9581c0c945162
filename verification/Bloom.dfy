/** The Bloom filter of a table (crates/storage/src/bloom.rs). */
module Bloom {
  import opened Prelude
  import opened Codec

  /** One step of FNV-1a. */
  function FnvStep(h: bv64, b: byte): bv64 { (h ^ (b as bv64)) * 0x100000001b3 }

  function Fnv(data: Bytes): bv64 {
    if data == [] then 0xcbf29ce484222325 else FnvStep(Fnv(data[..|data| - 1]), data[|data| - 1])
  }

  method Fnv1a(data: Bytes) returns (h: bv64)
    ensures h == Fnv(data)
  {
    h := 0xcbf29ce484222325;
    for i := 0 to |data|
      invariant h == Fnv(data[..i])
    {
      assert data[..i + 1][..i] == data[..i];
      h := FnvStep(h, data[i]);
    }
    assert data[..|data|] == data;
  }

  function Mix(x: bv64): bv64 {
    var y := (x ^ (x >> 30)) * 0xbf58476d1ce4e5b9;
    var z := (y ^ (y >> 27)) * 0x94d049bb133111eb;
    z ^ (z >> 31)
  }

  type u64 = x: nat | x < 0x1_0000_0000_0000_0000

  function Num(x: bv64): u64 { x as nat }

  function Bits(x: u64): bv64 { x as bv64 }

  /** The first hash of a key. */
  function KeyHash(key: Bytes): u64 { Num(Fnv(key)) }

  /** The second hash, derived from the first and odd. */
  function Second(h: u64): u64 { Num(Mix(Bits(h)) | 1) }

  /** The probe sequence: `h1 + i * h2`, wrapping. */
  function Probe(h1: u64, h2: u64, i: nat): u64 {
    if i == 0 then h1 else (Probe(h1, h2, i - 1) + h2) % 0x1_0000_0000_0000_0000
  }

  datatype BloomFilter = BloomFilter(k: nat, bits: seq<bv8>) {
    predicate Ok() { bits != [] && 1 <= k <= 30 }

    predicate HasBit(p: nat)
      requires bits != []
    {
      var bit := p % (8 * |bits|);
      IsSet(bits[bit / 8], bit % 8)
    }

    predicate HasProbes(h1: u64, h2: u64)
      requires bits != []
    {
      forall i :: 0 <= i < k ==> HasBit(Probe(h1, h2, i))
    }

    /** All probes of the hash are set. */
    predicate HasHash(h: u64)
      requires bits != []
    {
      HasProbes(h, Second(h))
    }
  }

  function Mask(i: nat): bv8
    requires i < 8
  {
    1 << i
  }

  predicate IsSet(b: bv8, i: nat)
    requires i < 8
  {
    b & Mask(i) != 0
  }

  /** The bit masks are those of eight different bits. */
  lemma MasksApart(i: nat, j: nat)
    requires i < 8 && j < 8
    ensures Mask(i) & Mask(j) != 0 <==> i == j
  {
    MaskValue(i);
    MaskValue(j);
  }

  function MaskAt(i: nat): bv8 {
    if i == 0 then 1 else if i == 1 then 2 else if i == 2 then 4 else if i == 3 then 8
    else if i == 4 then 16 else if i == 5 then 32 else if i == 6 then 64 else 128
  }

  lemma MaskValue(i: nat)
    requires i < 8
    ensures Mask(i) == MaskAt(i)
  {
    if i == 0 { assert Mask(0) == 1; }
    else if i == 1 { assert Mask(1) == 2; }
    else if i == 2 { assert Mask(2) == 4; }
    else if i == 3 { assert Mask(3) == 8; }
    else if i == 4 { assert Mask(4) == 16; }
    else if i == 5 { assert Mask(5) == 32; }
    else if i == 6 { assert Mask(6) == 64; }
    else { assert Mask(7) == 128; }
  }

  /** Setting one bit sets that bit and no other. */
  lemma SetBitExact(b: bv8, i: nat, j: nat)
    requires i < 8 && j < 8
    ensures IsSet(b | Mask(i), j) <==> IsSet(b, j) || i == j
  {
    MasksApart(i, j);
    OrSplits(b, Mask(i), Mask(j));
  }

  lemma OrSplits(b: bv8, m: bv8, n: bv8)
    ensures (b | m) & n != 0 <==> b & n != 0 || m & n != 0
  {}

  predicate Bit(bits: seq<bv8>, q: nat)
    requires q < 8 * |bits|
  {
    IsSet(bits[q / 8], q % 8)
  }

  /** Position `q` of `n` bits is one of the first `k` probes. */
  ghost predicate Struck(n: nat, h1: u64, h2: u64, k: nat, q: nat) { n > 0 && exists i: nat :: i < k && Probe(h1, h2, i) % n == q }

  /** Exactly the probes were added. */
  ghost predicate Strikes(a: seq<bv8>, b: seq<bv8>, h1: u64, h2: u64, k: nat) {
    |a| == |b| && forall q :: 0 <= q < 8 * |a| ==> (Bit(b, q) <==> Bit(a, q) || Struck(8 * |a|, h1, h2, k, q))
  }

  /** Sets the probes of one hash. */
  method AddHash(bits: array<bv8>, k: nat, h1: u64)
    requires bits.Length > 0
    modifies bits
    ensures Strikes(old(bits[..]), bits[..], h1, Second(h1), k) && BloomFilter(k, bits[..]).HasHash(h1)
  {
    AddProbes(bits, k, h1, Second(h1));
    StrikesHas(k, old(bits[..]), bits[..], h1, Second(h1));
  }

  method SetIn(bits: array<bv8>, bit: nat)
    requires bit < 8 * bits.Length
    modifies bits
    ensures bits[..] == old(bits[..])[bit / 8 := old(bits[..])[bit / 8] | Mask(bit % 8)]
  {
    bits[bit / 8] := bits[bit / 8] | Mask(bit % 8);
  }

  method AddProbes(bits: array<bv8>, k: nat, h1: u64, h2: u64)
    requires bits.Length > 0
    modifies bits
    ensures Strikes(old(bits[..]), bits[..], h1, h2, k)
  {
    var nbits := 8 * bits.Length;
    var pos := h1;
    for i := 0 to k
      invariant pos == Probe(h1, h2, i) && Strikes(old(bits[..]), bits[..], h1, h2, i)
    {
      var bit := pos % nbits;
      ghost var before := bits[..];
      SetIn(bits, bit);
      StrikesNext(old(bits[..]), before, bits[..], h1, h2, i);
      pos := (pos + h2) % 0x1_0000_0000_0000_0000;
    }
  }

  lemma StrikesHas(k: nat, a: seq<bv8>, b: seq<bv8>, h1: u64, h2: u64)
    requires a != [] && Strikes(a, b, h1, h2, k)
    ensures BloomFilter(k, b).HasProbes(h1, h2)
  {
    forall i | 0 <= i < k ensures BloomFilter(k, b).HasBit(Probe(h1, h2, i)) {
      assert Struck(8 * |a|, h1, h2, k, Probe(h1, h2, i) % (8 * |a|));
      assert Bit(b, Probe(h1, h2, i) % (8 * |a|));
    }
  }

  lemma BitExact(a: seq<bv8>, b: seq<bv8>, bit: nat, q: nat)
    requires |a| == |b| && bit < 8 * |a| && q < 8 * |a| && b == a[bit / 8 := a[bit / 8] | Mask(bit % 8)]
    ensures Bit(b, q) <==> Bit(a, q) || q == bit
  {
    if q / 8 == bit / 8 { SetBitExact(a[q / 8], bit % 8, q % 8); }
  }

  lemma StrikesNext(a: seq<bv8>, b: seq<bv8>, c: seq<bv8>, h1: u64, h2: u64, i: nat)
    requires |a| == |b| == |c| > 0 && Strikes(a, b, h1, h2, i)
    requires var bit := Probe(h1, h2, i) % (8 * |a|); c == b[bit / 8 := b[bit / 8] | Mask(bit % 8)]
    ensures Strikes(a, c, h1, h2, i + 1)
  {
    var n := 8 * |a|;
    forall q | 0 <= q < n ensures Bit(c, q) <==> Bit(a, q) || Struck(n, h1, h2, i + 1, q) {
      BitExact(b, c, Probe(h1, h2, i) % n, q);
      StruckNext(n, h1, h2, i, q);
    }
  }

  lemma StruckNext(n: nat, h1: u64, h2: u64, i: nat, q: nat)
    requires n > 0
    ensures Struck(n, h1, h2, i + 1, q) <==> Struck(n, h1, h2, i, q) || Probe(h1, h2, i) % n == q
  {}

  ghost predicate AnyOf(hashes: seq<u64>, p: u64 -> bool) { exists j :: 0 <= j < |hashes| && p(hashes[j]) }

  lemma AnyNext(hashes: seq<u64>, i: nat, p: u64 -> bool)
    requires i < |hashes|
    ensures AnyOf(hashes[..i + 1], p) <==> AnyOf(hashes[..i], p) || p(hashes[i])
  {
    var some, more := hashes[..i], hashes[..i + 1];
    if j :| 0 <= j < |some| && p(some[j]) { assert more[j] == some[j]; }
    if p(hashes[i]) { assert more[i] == hashes[i]; }
    if j :| 0 <= j < |more| && p(more[j]) {
      if j < i { assert some[j] == more[j]; }
    }
  }

  ghost function StruckBy(n: nat, k: nat, q: nat): u64 -> bool { (h: u64) => Struck(n, h, Second(h), k, q) }

  /** Position `q` is a probe of one of the hashes. */
  ghost predicate MarkedBy(n: nat, k: nat, hashes: seq<u64>, q: nat) { AnyOf(hashes, StruckBy(n, k, q)) }

  /** The bits of a filter are exactly the probes of its hashes. */
  ghost predicate Marks(bits: seq<bv8>, k: nat, hashes: seq<u64>) {
    forall q :: 0 <= q < 8 * |bits| ==> (Bit(bits, q) <==> MarkedBy(8 * |bits|, k, hashes, q))
  }

  lemma MarksNext(a: seq<bv8>, b: seq<bv8>, k: nat, hashes: seq<u64>, i: nat)
    requires i < |hashes| && Marks(a, k, hashes[..i]) && Strikes(a, b, hashes[i], Second(hashes[i]), k)
    ensures Marks(b, k, hashes[..i + 1])
  {
    forall q | 0 <= q < 8 * |b| ensures Bit(b, q) <==> MarkedBy(8 * |b|, k, hashes[..i + 1], q) {
      AnyNext(hashes, i, StruckBy(8 * |b|, k, q));
    }
  }

  lemma NothingMarked(bits: seq<bv8>, k: nat)
    requires forall i :: 0 <= i < |bits| ==> bits[i] == 0
    ensures Marks(bits, k, [])
  {
    forall q | 0 <= q < 8 * |bits| ensures !Bit(bits, q) { AndZero(Mask(q % 8)); }
  }

  /** No hash of a filter is ever rejected. */
  lemma MarksHas(f: BloomFilter, hashes: seq<u64>, j: nat)
    requires f.Ok() && Marks(f.bits, f.k, hashes) && j < |hashes|
    ensures f.HasHash(hashes[j])
  {
    var n, h := 8 * |f.bits|, hashes[j];
    forall i | 0 <= i < f.k ensures f.HasBit(Probe(h, Second(h), i)) {
      assert Struck(n, h, Second(h), f.k, Probe(h, Second(h), i) % n);
      assert StruckBy(n, f.k, Probe(h, Second(h), i) % n)(h);
      assert Bit(f.bits, Probe(h, Second(h), i) % n);
    }
  }

  lemma AndZero(m: bv8)
    ensures 0 & m == 0
  {}

  /** A filter of nothing rejects every key. */
  lemma EmptyRejects(f: BloomFilter, h: u64)
    requires f.Ok() && Marks(f.bits, f.k, [])
    ensures !f.HasHash(h)
  {
    var q := Probe(h, Second(h), 0) % (8 * |f.bits|);
    assert !Bit(f.bits, q);
    assert !f.HasBit(Probe(h, Second(h), 0));
  }

  /** A filter over the hashes: none of them is ever rejected. `k` stands for the probe count that the
      program derives from `bitsPerKey` in floating point. */
  method FromHashes(hashes: seq<u64>, bitsPerKey: nat, k: nat) returns (f: BloomFilter)
    requires 1 <= k <= 30
    ensures f.Ok() && f.k == k && forall h :: h in hashes ==> f.HasHash(h)
    ensures |f.bits| == (Max(|hashes| * bitsPerKey, 64) + 7) / 8 && Marks(f.bits, k, hashes)
  {
    var nbits := Max(|hashes| * bitsPerKey, 64);
    nbits := (nbits + 7) / 8 * 8;
    var bits := new bv8[nbits / 8](i => 0);
    NothingMarked(bits[..], k);
    for i := 0 to |hashes|
      invariant Marks(bits[..], k, hashes[..i])
    {
      ghost var before := bits[..];
      AddHash(bits, k, hashes[i]);
      MarksNext(before, bits[..], k, hashes, i);
    }
    assert hashes[..|hashes|] == hashes;
    f := BloomFilter(k, bits[..]);
    forall j | 0 <= j < |hashes| ensures f.HasHash(hashes[j]) { MarksHas(f, hashes, j); }
  }

  method TestProbes(f: BloomFilter, h1: u64, h2: u64) returns (r: bool)
    requires f.bits != []
    ensures r == f.HasProbes(h1, h2)
  {
    var pos := h1;
    for i := 0 to f.k
      invariant pos == Probe(h1, h2, i) && forall j :: 0 <= j < i ==> f.HasBit(Probe(h1, h2, j))
    {
      if !f.HasBit(pos) { return false; }
      pos := (pos + h2) % 0x1_0000_0000_0000_0000;
    }
    r := true;
  }

  /** Whether all probes of the key's hash are set. */
  method MayContain(f: BloomFilter, key: Bytes) returns (r: bool)
    requires f.bits != []
    ensures r == f.HasHash(KeyHash(key))
  {
    var h := Fnv1a(key);
    r := TestProbes(f, Num(h), Second(Num(h)));
  }

  // ------------------------------------------------------------- on disk

  function Encode(f: BloomFilter): Bytes { Le(f.k, 4) + seq(|f.bits|, i requires 0 <= i < |f.bits| => f.bits[i] as byte) }

  function Decode(data: Bytes): Option<BloomFilter> {
    if |data| < 5 then None
    else Some(BloomFilter(FromLe(data[..4]), seq(|data| - 4, i requires 0 <= i < |data| - 4 => data[4 + i] as bv8)))
  }

  lemma EncodeRoundTrip(f: BloomFilter)
    requires f.Ok()
    ensures Decode(Encode(f)) == Some(f)
  {
    var e := Encode(f);
    assert e[..4] == Le(f.k, 4);
    PowerValues();
    LeExact(f.k, 4);
    var g := Decode(e).value;
    forall i | 0 <= i < |f.bits| ensures g.bits[i] == f.bits[i] {
      assert e[4 + i] == f.bits[i] as byte;
      ByteBits(f.bits[i]);
    }
    assert g.bits == f.bits;
  }

  /** Decoding fails exactly on data too short for a probe count and one byte of bits; otherwise no byte is left over. */
  lemma DecodeExact(data: Bytes)
    ensures Decode(data).None? <==> |data| < 5
    ensures Decode(data).Some? ==>
              var f := Decode(data).value;
              Le(f.k, 4) == data[..4] && |f.bits| == |data| - 4 > 0 && forall i :: 0 <= i < |f.bits| ==> f.bits[i] == data[4 + i] as bv8
  {
    if |data| >= 5 { LeBack(data[..4]); }
  }

  lemma ByteBits(b: bv8)
    ensures (b as byte) as bv8 == b
  {}
}
