/** SHA-256 as FIPS 180-4 defines it, and the streaming implementation proved against it. */
module Sha256 {
  import opened Common

  const M64 := 0x1_0000_0000_0000_0000

  const K0: seq<bv32> :=
    [0x428a2f98, 0x71374491, 0xb5c0fbcf, 0xe9b5dba5, 0x3956c25b, 0x59f111f1, 0x923f82a4, 0xab1c5ed5]
  const K1: seq<bv32> :=
    [0xd807aa98, 0x12835b01, 0x243185be, 0x550c7dc3, 0x72be5d74, 0x80deb1fe, 0x9bdc06a7, 0xc19bf174]
  const K2: seq<bv32> :=
    [0xe49b69c1, 0xefbe4786, 0x0fc19dc6, 0x240ca1cc, 0x2de92c6f, 0x4a7484aa, 0x5cb0a9dc, 0x76f988da]
  const K3: seq<bv32> :=
    [0x983e5152, 0xa831c66d, 0xb00327c8, 0xbf597fc7, 0xc6e00bf3, 0xd5a79147, 0x06ca6351, 0x14292967]
  const K4: seq<bv32> :=
    [0x27b70a85, 0x2e1b2138, 0x4d2c6dfc, 0x53380d13, 0x650a7354, 0x766a0abb, 0x81c2c92e, 0x92722c85]
  const K5: seq<bv32> :=
    [0xa2bfe8a1, 0xa81a664b, 0xc24b8b70, 0xc76c51a3, 0xd192e819, 0xd6990624, 0xf40e3585, 0x106aa070]
  const K6: seq<bv32> :=
    [0x19a4c116, 0x1e376c08, 0x2748774c, 0x34b0bcb5, 0x391c0cb3, 0x4ed8aa4a, 0x5b9cca4f, 0x682e6ff3]
  const K7: seq<bv32> :=
    [0x748f82ee, 0x78a5636f, 0x84c87814, 0x8cc70208, 0x90befffa, 0xa4506ceb, 0xbef9a3f7, 0xc67178f2]

  /** The round constants of section 4.2.2. */
  const K: seq<bv32> := K0 + K1 + K2 + K3 + K4 + K5 + K6 + K7

  const IV: seq<bv32> := [
    0x6a09e667,0xbb67ae85,0x3c6ef372,0xa54ff53a,0x510e527f,0x9b05688c,0x1f83d9ab,0x5be0cd19]

  // ---- words --------------------------------------------------------------

  function Xor32(a: bv32, b: bv32): bv32 { a ^ b }
  function And32(a: bv32, b: bv32): bv32 { a & b }
  function Not32(a: bv32): bv32 { !a }
  function Shr(x: bv32, n: bv32): bv32 requires n < 32 { x >> n }

  function Rotr(x: bv32, n: bv32): bv32
    requires 0 < n < 32
  {
    (x >> n) | (x << (32 - n))
  }

  /** The functions of section 4.1.2. */
  function BigSigma0(x: bv32): bv32 { Xor32(Xor32(Rotr(x, 2), Rotr(x, 13)), Rotr(x, 22)) }
  function BigSigma1(x: bv32): bv32 { Xor32(Xor32(Rotr(x, 6), Rotr(x, 11)), Rotr(x, 25)) }
  function SmallSigma0(x: bv32): bv32 { Xor32(Xor32(Rotr(x, 7), Rotr(x, 18)), Shr(x, 3)) }
  function SmallSigma1(x: bv32): bv32 { Xor32(Xor32(Rotr(x, 17), Rotr(x, 19)), Shr(x, 10)) }
  function Ch(x: bv32, y: bv32, z: bv32): bv32 { Xor32(And32(x, y), And32(Not32(x), z)) }
  function Maj(x: bv32, y: bv32, z: bv32): bv32 { Xor32(Xor32(And32(x, y), And32(x, z)), And32(y, z)) }

  /** Addition modulo 2^32. */
  function Plus(a: bv32, b: bv32): bv32 { a + b }
  function Sum4(a: bv32, b: bv32, c: bv32, d: bv32): bv32 { a + b + c + d }
  function Sum5(a: bv32, b: bv32, c: bv32, d: bv32, e: bv32): bv32 { a + b + c + d + e }

  lemma Sum4Reversed(a: bv32, b: bv32, c: bv32, d: bv32)
    ensures Sum4(a, b, c, d) == Sum4(d, c, b, a)
  {
  }

  /** Four bytes as a big-endian word. */
  function WordOf(a: byte, b: byte, c: byte, d: byte): bv32
  {
    ((a as bv32) << 24) | ((b as bv32) << 16) | ((c as bv32) << 8) | (d as bv32)
  }

  function WordAt(b: seq<byte>, i: nat): bv32
    requires 4 * i + 4 <= |b|
  {
    WordOf(b[4 * i], b[4 * i + 1], b[4 * i + 2], b[4 * i + 3])
  }

  // ---- the compression function (section 6.2.2) ---------------------------

  /** Word t of the message schedule. */
  function W(b: seq<byte>, t: nat): bv32
    requires |b| == 64
  {
    if t < 16 then WordAt(b, t)
    else Sum4(SmallSigma1(W(b, t - 2)), W(b, t - 7), SmallSigma0(W(b, t - 15)), W(b, t - 16))
  }

  datatype Vars = Vars(a: bv32, b: bv32, c: bv32, d: bv32, e: bv32, f: bv32, g: bv32, h: bv32)

  function Round(v: Vars, k: bv32, w: bv32): Vars
  {
    var t1 := Sum5(v.h, BigSigma1(v.e), Ch(v.e, v.f, v.g), k, w);
    var t2 := Plus(BigSigma0(v.a), Maj(v.a, v.b, v.c));
    Vars(Plus(t1, t2), v.a, v.b, v.c, Plus(v.d, t1), v.e, v.f, v.g)
  }

  function Rounds(v: Vars, b: seq<byte>, t: nat): Vars
    requires |b| == 64 && t <= 64
  {
    if t == 0 then v else Round(Rounds(v, b, t - 1), K[t - 1], W(b, t - 1))
  }

  function VarsOf(h: seq<bv32>): Vars
    requires |h| == 8
  {
    Vars(h[0], h[1], h[2], h[3], h[4], h[5], h[6], h[7])
  }

  function Compress(h: seq<bv32>, b: seq<byte>): (r: seq<bv32>)
    requires |h| == 8 && |b| == 64
    ensures |r| == 8
  {
    Added(h, Rounds(VarsOf(h), b, 64))
  }

  function Added(h: seq<bv32>, v: Vars): (r: seq<bv32>)
    requires |h| == 8
    ensures |r| == 8
  {
    seq(8, i requires 0 <= i < 8 => Plus(h[i], Entry(v, i)))
  }

  function Entry(v: Vars, i: nat): bv32
    requires i < 8
  {
    [v.a, v.b, v.c, v.d, v.e, v.f, v.g, v.h][i]
  }

  // ---- padding and hashing (sections 5.1.1 and 6.2) -----------------------

  /** The compression function folded over a message of whole blocks. */
  function Fold(h: seq<bv32>, m: seq<byte>): (r: seq<bv32>)
    requires |h| == 8 && |m| % 64 == 0
    ensures |r| == 8
  {
    if m == [] then h else Compress(Fold(h, m[..|m| - 64]), m[|m| - 64..])
  }

  function Zeros(n: nat): (z: seq<byte>)
    ensures |z| == n
  {
    seq(n, _ => 0)
  }

  function Be64(v: nat): (b: seq<byte>)
    ensures |b| == 8
  {
    seq(8, i requires 0 <= i < 8 => (v / Pow2(8 * (7 - i))) % 256)
  }

  lemma LengthByte(v: nat, k: nat)
    requires k < 8
    ensures Be64(v)[k] == (v / Pow2(8 * (7 - k))) % 256
  {
  }

  /** How many zero bytes stand between the 0x80 and the length. */
  function ZeroCount(n: nat): (z: nat)
    ensures (n + 1 + z) % 64 == 56
  {
    (119 - n % 64) % 64
  }

  /** It is the smallest count that leaves exactly eight bytes in the last block. */
  lemma ZeroCountLeast(n: nat, z: nat)
    requires (n + 1 + z) % 64 == 56
    ensures ZeroCount(n) <= z
  {
  }

  function Pad(m: seq<byte>): (p: seq<byte>)
    ensures |p| % 64 == 0
  {
    m + [0x80] + Zeros(ZeroCount(|m|)) + Be64(8 * |m|)
  }

  /** The cast to uint8_t. */
  function LowByte(v: bv32): byte { ((v & 0xFF) as bv8) as int }

  function Be32(v: bv32): (b: seq<byte>)
    ensures |b| == 4
  {
    [LowByte(v >> 24), LowByte(v >> 16), LowByte(v >> 8), LowByte(v)]
  }

  function BytesOf(h: seq<bv32>): (b: seq<byte>)
    ensures |b| == 4 * |h|
  {
    if h == [] then [] else BytesOf(h[..|h| - 1]) + Be32(h[|h| - 1])
  }

  /** The digest of a message. */
  function Digest(m: seq<byte>): (d: seq<byte>)
    ensures |d| == 32
  {
    BytesOf(Fold(IV, Pad(m)))
  }

  lemma FoldStep(h: seq<bv32>, m: seq<byte>, b: seq<byte>)
    requires |h| == 8 && |m| % 64 == 0 && |b| == 64
    ensures Fold(h, m + b) == Compress(Fold(h, m), b)
  {
    hide Compress;
    assert (m + b)[..|m|] == m && (m + b)[|m|..] == b;
  }

  // ---- the implementation -------------------------------------------------

  lemma WStep(b: seq<byte>, t: nat)
    requires |b| == 64 && t >= 16
    ensures W(b, t) == Sum4(W(b, t - 16), SmallSigma0(W(b, t - 15)), W(b, t - 7), SmallSigma1(W(b, t - 2)))
  {
    Sum4Reversed(W(b, t - 16), SmallSigma0(W(b, t - 15)), W(b, t - 7), SmallSigma1(W(b, t - 2)));
    hide SmallSigma0, SmallSigma1, WordAt, Sum4;
  }

  lemma WFirst(b: seq<byte>, t: nat)
    requires |b| == 64 && t < 16
    ensures W(b, t) == WordAt(b, t)
  {
  }

  /** The message schedule in an array. */
  method Schedule(b: seq<byte>) returns (w: array<bv32>)
    requires |b| == 64
    ensures fresh(w) && w.Length == 64 && forall i :: 0 <= i < 64 ==> w[i] == W(b, i)
  {
    hide SmallSigma0, SmallSigma1, WordAt, W, Sum4;
    w := new bv32[64](_ => 0);
    var i := 0;
    while i < 16
      invariant 0 <= i <= 16 && forall k :: 0 <= k < i ==> w[k] == W(b, k)
    {
      WFirst(b, i);
      w[i] := WordAt(b, i);
      i := i + 1;
    }
    while i < 64
      invariant 16 <= i <= 64 && forall k :: 0 <= k < i ==> w[k] == W(b, k)
    {
      WStep(b, i);
      var s0 := SmallSigma0(w[i - 15]);
      var s1 := SmallSigma1(w[i - 2]);
      w[i] := Sum4(w[i - 16], s0, w[i - 7], s1);
      i := i + 1;
    }
  }

  /** The 64 rounds over the eight working variables. */
  method RunRounds(v0: Vars, b: seq<byte>) returns (v: Vars)
    requires |b| == 64
    ensures v == Rounds(v0, b, 64)
  {
    hide BigSigma0, BigSigma1, Ch, Maj, W, Plus, Sum5;
    var w := Schedule(b);
    var a, c0, c, d, e, f, g, x := v0.a, v0.b, v0.c, v0.d, v0.e, v0.f, v0.g, v0.h;
    var i := 0;
    while i < 64
      invariant 0 <= i <= 64
      invariant Vars(a, c0, c, d, e, f, g, x) == Rounds(v0, b, i)
    {
      var s1 := BigSigma1(e);
      var t1 := Sum5(x, s1, Ch(e, f, g), K[i], w[i]);
      var s0 := BigSigma0(a);
      var t2 := Plus(s0, Maj(a, c0, c));
      assert Rounds(v0, b, i + 1) == Round(Rounds(v0, b, i), K[i], W(b, i));
      x, g, f, e, d, c, c0, a := g, f, e, Plus(d, t1), c, c0, a, Plus(t1, t2);
      i := i + 1;
    }
    v := Vars(a, c0, c, d, e, f, g, x);
  }

  method AddTo(h: array<bv32>, v: Vars)
    requires h.Length == 8
    modifies h
    ensures h[..] == Added(old(h[..]), v)
  {
    hide Plus, Entry;
    var i := 0;
    while i < 8
      invariant 0 <= i <= 8
      invariant forall k :: 0 <= k < i ==> h[k] == Plus(old(h[k]), Entry(v, k))
      invariant forall k :: i <= k < 8 ==> h[k] == old(h[k])
    {
      h[i] := Plus(h[i], Entry(v, i));
      i := i + 1;
    }
  }

  /** block(): one block into the chaining value, in place. */
  method Block(h: array<bv32>, b: seq<byte>)
    requires h.Length == 8 && |b| == 64
    modifies h
    ensures h[..] == Compress(old(h[..]), b)
  {
    hide Rounds, Added;
    ghost var hs := h[..];
    var v := RunRounds(Vars(h[0], h[1], h[2], h[3], h[4], h[5], h[6], h[7]), b);
    assert v == Rounds(VarsOf(hs), b, 64) && h[..] == hs;
    AddTo(h, v);
  }

  // ---- streaming ----------------------------------------------------------

  /** hs is the chaining value of the whole blocks of m and buf is what is left of it. */
  ghost predicate Absorbed(hs: seq<bv32>, buf: seq<byte>, m: seq<byte>)
  {
    |hs| == 8 && |buf| == |m| % 64 && m[|m| - |buf|..] == buf && hs == Fold(IV, m[..|m| - |buf|])
  }

  lemma AbsorbTail(hs: seq<bv32>, buf: seq<byte>, m: seq<byte>, more: seq<byte>)
    requires Absorbed(hs, buf, m) && |buf| + |more| < 64
    ensures Absorbed(hs, buf + more, m + more)
  {
    hide Fold;
    assert (m + more)[..|m| - |buf|] == m[..|m| - |buf|];
    assert m == m[..|m| - |buf|] + buf;
  }

  lemma AbsorbBlock(hs: seq<bv32>, buf: seq<byte>, m: seq<byte>, more: seq<byte>)
    requires Absorbed(hs, buf, m) && |buf| + |more| == 64
    ensures Absorbed(Compress(hs, buf + more), [], m + more)
  {
    hide Fold, Compress;
    var whole := m[..|m| - |buf|];
    assert m + more == whole + (buf + more) by { assert m == whole + buf; }
    FoldStep(IV, whole, buf + more);
    assert (m + more)[..|m + more|] == m + more;
  }

  /** What final() appends to the buffered bytes. */
  function Tail(buf: seq<byte>, bits: nat): (t: seq<byte>)
    requires |buf| < 64
    ensures |t| == if |buf| < 56 then 64 else 128
  {
    buf + [0x80] + Zeros(ZeroCount(|buf|)) + Be64(bits)
  }

  lemma TailPads(buf: seq<byte>, m: seq<byte>)
    requires |buf| == |m| % 64 && m[|m| - |buf|..] == buf
    ensures Pad(m) == m[..|m| - |buf|] + Tail(buf, 8 * |m|)
  {
    hide Be64, Zeros;
    var whole := m[..|m| - |buf|];
    assert m == whole + buf;
    var z := Zeros(ZeroCount(|m|));
    assert m + [0x80] == whole + (buf + [0x80]);
    assert m + [0x80] + z == whole + (buf + [0x80] + z);
  }

  /** The last one or two blocks give the digest of the whole message. */
  lemma TailDigest(hs: seq<bv32>, buf: seq<byte>, m: seq<byte>, tail: seq<byte>)
    requires Absorbed(hs, buf, m) && tail == Tail(buf, 8 * |m|)
    ensures Fold(IV, Pad(m)) ==
            if |buf| < 56 then Compress(hs, tail[..64]) else Compress(Compress(hs, tail[..64]), tail[64..])
  {
    hide Fold, Compress, Tail, Pad;
    TailPads(buf, m);
    var whole := m[..|m| - |buf|];
    FoldStep(IV, whole, tail[..64]);
    if |buf| < 56 {
      assert tail[..64] == tail;
    } else {
      FoldStep(IV, whole + tail[..64], tail[64..]);
      assert whole + tail == whole + tail[..64] + tail[64..];
    }
  }

  /** The eight words as big-endian bytes, as final() writes them. */
  method WriteDigest(h: seq<bv32>) returns (out: seq<byte>)
    requires |h| == 8
    ensures out == BytesOf(h)
  {
    hide Be32;
    out := [];
    var i := 0;
    while i < 8
      invariant 0 <= i <= 8 && out == BytesOf(h[..i])
    {
      assert h[..i + 1][..i] == h[..i];
      out := out + Be32(h[i]);
      i := i + 1;
    }
    assert h[..8] == h;
  }

  /** rnet_sha256_ctx. */
  class Context {
    const h: array<bv32>
    var total: nat
    const buffer: array<byte>
    var buffered: nat

    ghost predicate Valid()
      reads this, h, buffer
    {
      h.Length == 8 && buffer.Length == 64 && buffered < 64
    }

    /** The bytes taken in so far are m. */
    ghost predicate Took(m: seq<byte>)
      requires Valid()
      reads this, h, buffer
    {
      total == |m| % M64 && Absorbed(h[..], buffer[..buffered], m)
    }

    constructor ()
      ensures Valid() && Took([]) && fresh(h) && fresh(buffer)
    {
      h := new bv32[8](i requires 0 <= i < 8 => IV[i]);
      buffer := new byte[64](_ => 0);
      total, buffered := 0, 0;
      new;
      assert h[..] == IV;
    }

    /** The first part of update(): top up a partly filled buffer. */
    method TopUp(data: seq<byte>, ghost m: seq<byte>) returns (take: nat)
      requires Valid() && Absorbed(h[..], buffer[..buffered], m)
      modifies this`buffered, h, buffer
      ensures Valid() && take <= |data|
      ensures Absorbed(h[..], buffer[..buffered], m + data[..take])
      ensures take == |data| || buffered == 0
    {
      hide Compress, Absorbed;
      if buffered == 0 {
        assert m + data[..0] == m;
        return 0;
      }
      take := if 64 - buffered > |data| then |data| else 64 - buffered;
      ghost var buf, hs := buffer[..buffered], h[..];
      forall i | 0 <= i < take { buffer[buffered + i] := data[i]; }
      assert buffer[..buffered + take] == buf + data[..take];
      if buffered + take == 64 {
        assert buffer[..] == buf + data[..take] && h[..] == hs;
        Block(h, buffer[..]);
        AbsorbBlock(hs, buf, m, data[..take]);
        buffered := 0;
        assert buffer[..buffered] == [];
      } else {
        AbsorbTail(hs, buf, m, data[..take]);
        buffered := buffered + take;
        assert h[..] == hs && buffer[..buffered] == buf + data[..take];
      }
    }

    /** The second part of update(): whole blocks straight from the input. */
    method WholeBlocks(data: seq<byte>, from: nat, ghost m: seq<byte>) returns (at: nat)
      requires Valid() && buffered == 0 && from <= |data|
      requires Absorbed(h[..], [], m + data[..from])
      modifies h
      ensures Valid() && from <= at <= |data| < at + 64
      ensures Absorbed(h[..], [], m + data[..at])
    {
      hide Compress, Absorbed;
      at := from;
      while |data| - at >= 64
        invariant from <= at <= |data| && Absorbed(h[..], [], m + data[..at])
      {
        ghost var hs := h[..];
        var b := data[at..at + 64];
        Block(h, b);
        AbsorbBlock(hs, [], m + data[..at], b);
        var none: seq<byte> := [];
        assert none + b == b;
        assert m + data[..at + 64] == m + data[..at] + b;
        at := at + 64;
      }
    }

    method Update(data: seq<byte>, ghost m: seq<byte>)
      requires Valid() && Took(m)
      modifies this`total, this`buffered, h, buffer
      ensures Valid() && Took(m + data)
    {
      hide Absorbed;
      assert (|m| + |data|) % M64 == (|m| % M64 + |data|) % M64;
      total := (total + |data|) % M64;
      var at := TopUp(data, m);
      if at < |data| || buffered == 0 {
        assert buffer[..0] == [];
        at := WholeBlocks(data, at, m);
        ghost var hs := h[..];
        var left := |data| - at;
        forall i | 0 <= i < left { buffer[i] := data[at + i]; }
        buffered := left;
        var none: seq<byte> := [];
        assert h[..] == hs && buffer[..buffered] == none + data[at..];
        AbsorbTail(hs, none, m + data[..at], data[at..]);
        assert m + data[..at] + data[at..] == m + data;
      } else {
        assert data[..at] == data;
      }
    }

    /** The loop that writes the length in bits at the end of the tail. */
    static method PutLength(t: array<byte>, bits: nat)
      requires t.Length >= 8
      modifies t
      ensures t[..t.Length - 8] == old(t[..t.Length - 8]) && t[t.Length - 8..] == Be64(bits)
    {
      hide Be64, Pow2;
      ghost var start := t[..t.Length - 8];
      var i := 0;
      while i < 8
        invariant 0 <= i <= 8 && t[..t.Length - 8] == start
        invariant forall k :: 8 - i <= k < 8 ==> t[t.Length - 8 + k] == Be64(bits)[k]
      {
        LengthByte(bits, 7 - i);
        t[t.Length - 1 - i] := (bits / Pow2(8 * i)) % 256;
        i := i + 1;
      }
    }

    /** The last block or two: what is buffered, the 0x80, the zeros and the length in bits. */
    method Padding() returns (tail: seq<byte>)
      requires Valid()
      ensures tail == Tail(buffer[..buffered], (8 * total) % M64)
    {
      hide Be64;
      var n := buffered;
      var size := if n < 56 then 64 else 128;
      var t := new byte[size](_ => 0);
      forall i | 0 <= i < n { t[i] := buffer[i]; }
      t[n] := 0x80;
      ghost var start := t[..size - 8];
      assert start == buffer[..n] + [0x80] + Zeros(ZeroCount(n));
      PutLength(t, (8 * total) % M64);
      tail := t[..];
      assert tail == t[..size - 8] + t[size - 8..];
    }

    method Final(ghost m: seq<byte>) returns (out: seq<byte>)
      requires Valid() && Took(m) && |m| < 0x2000_0000_0000_0000
      modifies h
      ensures out == Digest(m)
    {
      hide Absorbed, Compress, Tail, Pad, Fold;
      var tail := Padding();
      ghost var hs, buf := h[..], buffer[..buffered];
      assert (8 * total) % M64 == 8 * |m|;
      Block(h, tail[..64]);
      if |tail| == 128 { Block(h, tail[64..]); }
      TailDigest(hs, buf, m, tail);
      assert h[..] == Fold(IV, Pad(m));
      out := WriteDigest(h[..]);
    }
  }

  /** rnet_sha256_compute(). */
  method Compute(data: seq<byte>) returns (out: seq<byte>)
    requires |data| < 0x2000_0000_0000_0000
    ensures out == Digest(data)
  {
    var c := new Context();
    c.Update(data, []);
    assert [] + data == data;
    out := c.Final(data);
  }

  /** However a message is cut into updates, final() gives the digest of the whole. */
  method ComputeChunks(chunks: seq<seq<byte>>) returns (out: seq<byte>)
    requires |Concat(chunks)| < 0x2000_0000_0000_0000
    ensures out == Digest(Concat(chunks))
  {
    hide Digest, Absorbed;
    var c := new Context();
    var i := 0;
    while i < |chunks|
      invariant 0 <= i <= |chunks| && c.Valid() && c.Took(Concat(chunks[..i]))
      invariant fresh(c) && fresh(c.h) && fresh(c.buffer)
    {
      c.Update(chunks[i], Concat(chunks[..i]));
      assert chunks[..i + 1][..i] == chunks[..i];
      i := i + 1;
    }
    assert chunks[..|chunks|] == chunks;
    out := c.Final(Concat(chunks));
  }
}

/** HMAC-SHA256 of a nonce under the verifier, in hexadecimal. */
module Hmac {
  import opened Common
  import opened Sha256

  const IPAD: byte := 0x36
  const OPAD: byte := 0x5c

  /** Each byte of k combined with the pad byte. */
  function Masked(k: seq<byte>, pad: byte): (r: seq<byte>)
    ensures |r| == |k|
  {
    if k == [] then [] else Masked(k[..|k| - 1], pad) + [Xor(k[|k| - 1], pad)]
  }

  /** The key brought to the block length, as section 2 of RFC 2104 asks. */
  function BlockKey(key: seq<byte>): (k: seq<byte>)
    ensures |k| == 64
  {
    if |key| > 64 then Digest(key) + Zeros(32) else key + Zeros(64 - |key|)
  }

  /** Section 2 of RFC 2104: H(K XOR opad, H(K XOR ipad, text)). */
  function Mac(key: seq<byte>, text: seq<byte>): (d: seq<byte>)
    ensures |d| == 32
  {
    Digest(Masked(BlockKey(key), OPAD) + Digest(Masked(BlockKey(key), IPAD) + text))
  }

  /** The digits 0 to 9, then a to f. */
  function Char(d: nat): (c: byte)
    requires d < 16
  {
    if d < 10 then 48 + d else 87 + d
  }

  function Hex(b: seq<byte>): (t: Text)
    ensures |t| == 2 * |b|
  {
    if b == [] then [] else Hex(b[..|b| - 1]) + [Char(b[|b| - 1] / 16), Char(b[|b| - 1] % 16)]
  }

  function Digit(c: byte): (d: byte)
    ensures d < 16
  {
    if 48 <= c <= 57 then c - 48 else if 97 <= c <= 102 then c - 87 else 0
  }

  function UnHex(t: Text): (b: seq<byte>)
    requires |t| % 2 == 0
  {
    if t == [] then [] else UnHex(t[..|t| - 2]) + [16 * (Digit(t[|t| - 2]) as int) + Digit(t[|t| - 1]) as int]
  }

  lemma DigitOf(d: byte)
    requires d < 16
    ensures Digit(Char(d)) == d
  {
  }

  /** The digits determine the bytes. */
  lemma {:induction false} HexRoundTrip(b: seq<byte>)
    ensures UnHex(Hex(b)) == b
  {
    hide Digit, Char;
    if b != [] {
      var x: byte := b[|b| - 1];
      var t := Hex(b);
      assert t[..|t| - 2] == Hex(b[..|b| - 1]);
      HexRoundTrip(b[..|b| - 1]);
      DigitOf(x / 16);
      DigitOf(x % 16);
      assert b == b[..|b| - 1] + [x];
    }
  }

  method HexEncode(b: seq<byte>) returns (out: Text)
    ensures out == Hex(b)
  {
    out := [];
    var i := 0;
    while i < |b|
      invariant 0 <= i <= |b| && out == Hex(b[..i])
    {
      assert b[..i + 1][..i] == b[..i];
      out := out + [Char(b[i] / 16), Char(b[i] % 16)];
      i := i + 1;
    }
    assert b[..|b|] == b;
  }

  method MaskKey(k: array<byte>, mask: byte) returns (pad: seq<byte>)
    ensures pad == Masked(k[..], mask)
  {
    hide Xor;
    pad := [];
    var i := 0;
    while i < k.Length
      invariant 0 <= i <= k.Length && pad == Masked(k[..i], mask)
    {
      assert k[..i + 1][..i] == k[..i];
      pad := pad + [Xor(k[i], mask)];
      i := i + 1;
    }
    assert k[..k.Length] == k[..];
  }

  /** A key longer than a block is replaced by its digest. */
  method LoadKey(key: Text) returns (k: array<byte>)
    requires |key| < 0x2000_0000_0000_0000
    ensures fresh(k) && k.Length == 64 && k[..] == BlockKey(key)
  {
    hide Digest;
    k := new byte[64](_ => 0);
    var from := key;
    if |key| > 64 { from := Compute(key); }
    forall i | 0 <= i < |from| { k[i] := from[i]; }
    assert k[..] == from + Zeros(64 - |from|);
  }

  /** hmac_sha256_hex(). */
  method HmacSha256Hex(key: Text, msg: Text) returns (out: Text)
    requires |key| < 0x1000_0000_0000_0000 && |msg| < 0x1000_0000_0000_0000
    ensures out == Hex(Mac(key, msg))
  {
    hide Digest, BlockKey, Hex, Masked, Absorbed;
    var k := LoadKey(key);
    var pad := MaskKey(k, IPAD);
    var c := new Context();
    c.Update(pad, []);
    c.Update(msg, [] + pad);
    var inner := c.Final([] + pad + msg);
    assert [] + pad + msg == pad + msg;
    pad := MaskKey(k, OPAD);
    var outer := Compute(pad + inner);
    assert outer == Mac(key, msg);
    out := HexEncode(outer);
  }
}
