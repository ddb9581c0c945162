/** Fixed-width integers as bytes, little and big endian. */
module Codec {
  import opened Prelude

  function Pow256(w: nat): (r: nat)
    ensures r > 0
  {
    if w == 0 then 1 else 256 * Pow256(w - 1)
  }

  /** `n as u32/u64` in `w` little-endian bytes: higher bits are cut off. */
  function Le(n: nat, w: nat): (r: Bytes)
    ensures |r| == w
  {
    if w == 0 then [] else [(n % 256) as byte] + Le(n / 256, w - 1)
  }

  function FromLe(b: Bytes): nat {
    if b == [] then 0 else b[0] as nat + 256 * FromLe(b[1..])
  }

  lemma {:induction false} LeRoundTrip(n: nat, w: nat)
    ensures FromLe(Le(n, w)) == n % Pow256(w)
  {
    if w > 0 {
      LeRoundTrip(n / 256, w - 1);
      assert Le(n, w)[1..] == Le(n / 256, w - 1);
      DivModStep(n, Pow256(w - 1));
    }
  }

  lemma DivModStep(n: nat, p: nat)
    requires p > 0
    ensures n % (256 * p) == n % 256 + 256 * ((n / 256) % p)
  {
    var q, r := n / 256, n % 256;
    var a, b := q / p, q % p;
    assert q == a * p + b;
    assert n == 256 * q + r == a * (256 * p) + (256 * b + r);
    assert 0 <= 256 * b + r < 256 * p;
    ModUnique(n, 256 * p, a, 256 * b + r);
  }

  lemma ModUnique(n: nat, m: nat, a: nat, r: nat)
    requires m > 0 && n == a * m + r && r < m
    ensures n % m == r
  {
    var d := n / m - a;
    assert n == (n / m) * m + n % m;
    assert d * m == r - n % m by { assert (n / m) * m - a * m == d * m; }
    assert d >= 1 ==> d * m >= m;
    assert d <= -1 ==> d * m <= -1 * m;
  }

  lemma PowerValues()
    ensures Pow256(4) == 0x1_0000_0000 && Pow256(8) == 0x1_0000_0000_0000_0000
  {
    assert Pow256(1) == 256;
    assert Pow256(2) == 0x1_0000;
    assert Pow256(3) == 0x100_0000;
    assert Pow256(4) == 0x1_0000_0000;
    assert Pow256(5) == 0x100_0000_0000;
    assert Pow256(6) == 0x1_0000_0000_0000;
    assert Pow256(7) == 0x100_0000_0000_0000;
  }

  lemma LeExact(n: nat, w: nat)
    requires n < Pow256(w)
    ensures FromLe(Le(n, w)) == n
  {
    LeRoundTrip(n, w);
  }

  /** Reading bytes and writing the number back gives the same bytes. */
  lemma {:induction false} LeBack(b: Bytes)
    ensures FromLe(b) < Pow256(|b|) && Le(FromLe(b), |b|) == b
  {
    if b != [] {
      LeBack(b[1..]);
      var r := FromLe(b[1..]);
      assert FromLe(b) / 256 == r && FromLe(b) % 256 == b[0] as nat;
    }
  }

  /** `to_be_bytes`: most significant byte first. */
  function Be(n: nat, w: nat): (r: Bytes)
    ensures |r| == w
  {
    if w == 0 then [] else Be(n / 256, w - 1) + [(n % 256) as byte]
  }

  // ------------------------------------------------------------- byte strings in a row

  function Join(parts: seq<Bytes>): Bytes {
    if parts == [] then [] else Join(parts[..|parts| - 1]) + parts[|parts| - 1]
  }

  lemma {:induction false} JoinConcat(a: seq<Bytes>, b: seq<Bytes>)
    ensures Join(a + b) == Join(a) + Join(b)
    decreases |b|
  {
    if b == [] {
      assert a + b == a;
    } else {
      var k := |b| - 1;
      JoinConcat(a, b[..k]);
      assert (a + b)[..|a| + k] == a + b[..k];
      assert Join(a + b) == (Join(a) + Join(b[..k])) + b[k] == Join(a) + (Join(b[..k]) + b[k]);
    }
  }

  /** Where part `i` starts. */
  function Offset(parts: seq<Bytes>, i: nat): nat
    requires i <= |parts|
  {
    |Join(parts[..i])|
  }

  /** `p` fills `buf` from `a` to `b`. */
  predicate Lies(buf: Bytes, p: Bytes, a: nat, b: nat) {
    var lies := a + |p| == b <= |buf| && buf[a..b] == p;
    lies
  }

  lemma PrefixJoin(parts: seq<Bytes>, i: nat)
    requires i <= |parts|
    ensures Offset(parts, i) <= |Join(parts)| && Join(parts)[..Offset(parts, i)] == Join(parts[..i])
  {
    JoinConcat(parts[..i], parts[i..]);
    assert parts[..i] + parts[i..] == parts;
  }

  lemma NextOffset(parts: seq<Bytes>, i: nat)
    requires i < |parts|
    ensures Join(parts[..i + 1]) == Join(parts[..i]) + parts[i]
  {
    assert parts[..i + 1][..i] == parts[..i];
  }

  /** Part `i` sits behind the parts before it. */
  lemma PartAt(parts: seq<Bytes>, i: nat)
    requires i < |parts|
    ensures Lies(Join(parts), parts[i], Offset(parts, i), Offset(parts, i + 1))
  {
    PrefixJoin(parts, i + 1);
    NextOffset(parts, i);
    var a, b, all := Offset(parts, i), Offset(parts, i + 1), Join(parts);
    assert all[a..b] == all[..b][a..];
  }

  /** All the parts, one behind the other. */
  lemma Layout(parts: seq<Bytes>) returns (offs: seq<nat>)
    ensures |offs| == |parts| + 1 && offs[0] == 0 && offs[|parts|] == |Join(parts)|
    ensures forall j :: 0 <= j < |parts| ==> Lies(Join(parts), parts[j], offs[j], offs[j + 1])
    ensures forall j :: 0 <= j <= |parts| ==> offs[j] == Offset(parts, j)
  {
    offs := seq(|parts| + 1, j requires 0 <= j <= |parts| => Offset(parts, j));
    assert parts[..0] == [] && parts[..|parts|] == parts;
    forall j | 0 <= j < |parts| ensures Lies(Join(parts), parts[j], offs[j], offs[j + 1]) { PartAt(parts, j); }
  }

  /** A slice of a slice. */
  lemma SliceOf(buf: Bytes, off: nat, e: Bytes, a: nat, b: nat)
    requires off + |e| <= |buf| && buf[off..off + |e|] == e && a <= b <= |e|
    ensures buf[off + a..off + b] == e[a..b]
  {
    forall i | a <= i < b ensures buf[off + i] == e[i] { assert buf[off..off + |e|][i] == e[i]; }
  }
}
