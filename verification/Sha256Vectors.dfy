/** Digests worked out: the example of FIPS 180-4 and a test case of RFC 4231. */
module Sha256Vectors {
  import opened Common
  import opened Sha256

  // ---- sixteen words and sixteen rounds at a time -------------------------

  datatype Sixteen = Sixteen(
    w0: bv32, w1: bv32, w2: bv32, w3: bv32, w4: bv32, w5: bv32, w6: bv32, w7: bv32,
    w8: bv32, w9: bv32, w10: bv32, w11: bv32, w12: bv32, w13: bv32, w14: bv32, w15: bv32)

  /** The next sixteen words of the schedule. */
  predicate Next(s: Sixteen, n: Sixteen)
  {
    && n.w0 == Sum4(SmallSigma1(s.w14), s.w9, SmallSigma0(s.w1), s.w0)
    && n.w1 == Sum4(SmallSigma1(s.w15), s.w10, SmallSigma0(s.w2), s.w1)
    && n.w2 == Sum4(SmallSigma1(n.w0), s.w11, SmallSigma0(s.w3), s.w2)
    && n.w3 == Sum4(SmallSigma1(n.w1), s.w12, SmallSigma0(s.w4), s.w3)
    && n.w4 == Sum4(SmallSigma1(n.w2), s.w13, SmallSigma0(s.w5), s.w4)
    && n.w5 == Sum4(SmallSigma1(n.w3), s.w14, SmallSigma0(s.w6), s.w5)
    && n.w6 == Sum4(SmallSigma1(n.w4), s.w15, SmallSigma0(s.w7), s.w6)
    && n.w7 == Sum4(SmallSigma1(n.w5), n.w0, SmallSigma0(s.w8), s.w7)
    && n.w8 == Sum4(SmallSigma1(n.w6), n.w1, SmallSigma0(s.w9), s.w8)
    && n.w9 == Sum4(SmallSigma1(n.w7), n.w2, SmallSigma0(s.w10), s.w9)
    && n.w10 == Sum4(SmallSigma1(n.w8), n.w3, SmallSigma0(s.w11), s.w10)
    && n.w11 == Sum4(SmallSigma1(n.w9), n.w4, SmallSigma0(s.w12), s.w11)
    && n.w12 == Sum4(SmallSigma1(n.w10), n.w5, SmallSigma0(s.w13), s.w12)
    && n.w13 == Sum4(SmallSigma1(n.w11), n.w6, SmallSigma0(s.w14), s.w13)
    && n.w14 == Sum4(SmallSigma1(n.w12), n.w7, SmallSigma0(s.w15), s.w14)
    && n.w15 == Sum4(SmallSigma1(n.w13), n.w8, SmallSigma0(n.w0), s.w15)
  }

  lemma NextWords(
    w0: bv32, w1: bv32, w2: bv32, w3: bv32, w4: bv32, w5: bv32, w6: bv32, w7: bv32,
    w8: bv32, w9: bv32, w10: bv32, w11: bv32, w12: bv32, w13: bv32, w14: bv32, w15: bv32,
    v0: bv32, v1: bv32, v2: bv32, v3: bv32, v4: bv32, v5: bv32, v6: bv32, v7: bv32,
    v8: bv32, v9: bv32, v10: bv32, v11: bv32, v12: bv32, v13: bv32, v14: bv32, v15: bv32)
    requires v0 == Sum4(SmallSigma1(w14), w9, SmallSigma0(w1), w0)
    requires v1 == Sum4(SmallSigma1(w15), w10, SmallSigma0(w2), w1)
    requires v2 == Sum4(SmallSigma1(v0), w11, SmallSigma0(w3), w2)
    requires v3 == Sum4(SmallSigma1(v1), w12, SmallSigma0(w4), w3)
    requires v4 == Sum4(SmallSigma1(v2), w13, SmallSigma0(w5), w4)
    requires v5 == Sum4(SmallSigma1(v3), w14, SmallSigma0(w6), w5)
    requires v6 == Sum4(SmallSigma1(v4), w15, SmallSigma0(w7), w6)
    requires v7 == Sum4(SmallSigma1(v5), v0, SmallSigma0(w8), w7)
    requires v8 == Sum4(SmallSigma1(v6), v1, SmallSigma0(w9), w8)
    requires v9 == Sum4(SmallSigma1(v7), v2, SmallSigma0(w10), w9)
    requires v10 == Sum4(SmallSigma1(v8), v3, SmallSigma0(w11), w10)
    requires v11 == Sum4(SmallSigma1(v9), v4, SmallSigma0(w12), w11)
    requires v12 == Sum4(SmallSigma1(v10), v5, SmallSigma0(w13), w12)
    requires v13 == Sum4(SmallSigma1(v11), v6, SmallSigma0(w14), w13)
    requires v14 == Sum4(SmallSigma1(v12), v7, SmallSigma0(w15), w14)
    requires v15 == Sum4(SmallSigma1(v13), v8, SmallSigma0(v0), w15)
    ensures Next(Sixteen(w0, w1, w2, w3, w4, w5, w6, w7, w8, w9, w10, w11, w12, w13, w14, w15),
                 Sixteen(v0, v1, v2, v3, v4, v5, v6, v7, v8, v9, v10, v11, v12, v13, v14, v15))
  {
    hide Sum4, SmallSigma0, SmallSigma1;
  }

  /** Words t to t + 15 of the schedule. */
  predicate Window(b: seq<byte>, t: nat, s: Sixteen)
    requires |b| == 64
  {
    && W(b, t + 0) == s.w0 && W(b, t + 1) == s.w1 && W(b, t + 2) == s.w2 && W(b, t + 3) == s.w3
    && W(b, t + 4) == s.w4 && W(b, t + 5) == s.w5 && W(b, t + 6) == s.w6 && W(b, t + 7) == s.w7
    && W(b, t + 8) == s.w8 && W(b, t + 9) == s.w9 && W(b, t + 10) == s.w10 && W(b, t + 11) == s.w11
    && W(b, t + 12) == s.w12 && W(b, t + 13) == s.w13 && W(b, t + 14) == s.w14 && W(b, t + 15) == s.w15
  }

  lemma WordIs(b: seq<byte>, t: nat)
    requires |b| == 64
    ensures W(b, t + 16) == Sum4(SmallSigma1(W(b, t + 14)), W(b, t + 9), SmallSigma0(W(b, t + 1)), W(b, t))
  {
    hide SmallSigma0, SmallSigma1, Sum4, WordAt;
  }

  lemma NextWindow(b: seq<byte>, t: nat, s: Sixteen, n: Sixteen)
    requires |b| == 64 && Window(b, t, s) && Next(s, n)
    ensures Window(b, t + 16, n)
  {
    hide SmallSigma0, SmallSigma1, Sum4, W;
    WordIs(b, t + 0);
    WordIs(b, t + 1);
    WordIs(b, t + 2);
    WordIs(b, t + 3);
    WordIs(b, t + 4);
    WordIs(b, t + 5);
    WordIs(b, t + 6);
    WordIs(b, t + 7);
    WordIs(b, t + 8);
    WordIs(b, t + 9);
    WordIs(b, t + 10);
    WordIs(b, t + 11);
    WordIs(b, t + 12);
    WordIs(b, t + 13);
    WordIs(b, t + 14);
    WordIs(b, t + 15);
  }

  /** Eight rounds, and eight more. */
  function RunLow(v: Vars, k: Sixteen, w: Sixteen): Vars
  {
    var r1 := Round(v, k.w0, w.w0);
    var r2 := Round(r1, k.w1, w.w1);
    var r3 := Round(r2, k.w2, w.w2);
    var r4 := Round(r3, k.w3, w.w3);
    var r5 := Round(r4, k.w4, w.w4);
    var r6 := Round(r5, k.w5, w.w5);
    var r7 := Round(r6, k.w6, w.w6);
    var r8 := Round(r7, k.w7, w.w7);
    r8
  }

  function RunHigh(v: Vars, k: Sixteen, w: Sixteen): Vars
  {
    var r1 := Round(v, k.w8, w.w8);
    var r2 := Round(r1, k.w9, w.w9);
    var r3 := Round(r2, k.w10, w.w10);
    var r4 := Round(r3, k.w11, w.w11);
    var r5 := Round(r4, k.w12, w.w12);
    var r6 := Round(r5, k.w13, w.w13);
    var r7 := Round(r6, k.w14, w.w14);
    var r8 := Round(r7, k.w15, w.w15);
    r8
  }

  function Run(v: Vars, k: Sixteen, w: Sixteen): Vars
  {
    RunHigh(RunLow(v, k, w), k, w)
  }

  /** One round brings in a and e; the rest moves up. */
  predicate Gives(v: Vars, k: bv32, w: bv32, a: bv32, e: bv32)
  {
    Round(v, k, w) == Vars(a, v.a, v.b, v.c, e, v.e, v.f, v.g)
  }

  predicate Constants(t: nat, k: Sixteen)
    requires t + 16 <= 64
  {
    && K[t + 0] == k.w0 && K[t + 1] == k.w1 && K[t + 2] == k.w2 && K[t + 3] == k.w3
    && K[t + 4] == k.w4 && K[t + 5] == k.w5 && K[t + 6] == k.w6 && K[t + 7] == k.w7
    && K[t + 8] == k.w8 && K[t + 9] == k.w9 && K[t + 10] == k.w10 && K[t + 11] == k.w11
    && K[t + 12] == k.w12 && K[t + 13] == k.w13 && K[t + 14] == k.w14 && K[t + 15] == k.w15
  }

  lemma RoundIs(v: Vars, b: seq<byte>, t: nat)
    requires |b| == 64 && t < 64
    ensures Rounds(v, b, t + 1) == Round(Rounds(v, b, t), K[t], W(b, t))
  {
    hide Round, W;
  }

  lemma RunIs(v: Vars, b: seq<byte>, t: nat, k: Sixteen, w: Sixteen)
    requires |b| == 64 && t + 16 <= 64 && Constants(t, k) && Window(b, t, w)
    ensures Rounds(v, b, t + 16) == Run(Rounds(v, b, t), k, w)
  {
    hide Round, W, Rounds;
    RoundIs(v, b, t + 0);
    RoundIs(v, b, t + 1);
    RoundIs(v, b, t + 2);
    RoundIs(v, b, t + 3);
    RoundIs(v, b, t + 4);
    RoundIs(v, b, t + 5);
    RoundIs(v, b, t + 6);
    RoundIs(v, b, t + 7);
    RoundIs(v, b, t + 8);
    RoundIs(v, b, t + 9);
    RoundIs(v, b, t + 10);
    RoundIs(v, b, t + 11);
    RoundIs(v, b, t + 12);
    RoundIs(v, b, t + 13);
    RoundIs(v, b, t + 14);
    RoundIs(v, b, t + 15);
  }

  const KW0 := Sixteen(
    0x428a2f98, 0x71374491, 0xb5c0fbcf, 0xe9b5dba5, 0x3956c25b, 0x59f111f1, 0x923f82a4, 0xab1c5ed5, 0xd807aa98,
    0x12835b01, 0x243185be, 0x550c7dc3, 0x72be5d74, 0x80deb1fe, 0x9bdc06a7, 0xc19bf174)
  const KW1 := Sixteen(
    0xe49b69c1, 0xefbe4786, 0x0fc19dc6, 0x240ca1cc, 0x2de92c6f, 0x4a7484aa, 0x5cb0a9dc, 0x76f988da, 0x983e5152,
    0xa831c66d, 0xb00327c8, 0xbf597fc7, 0xc6e00bf3, 0xd5a79147, 0x06ca6351, 0x14292967)
  const KW2 := Sixteen(
    0x27b70a85, 0x2e1b2138, 0x4d2c6dfc, 0x53380d13, 0x650a7354, 0x766a0abb, 0x81c2c92e, 0x92722c85, 0xa2bfe8a1,
    0xa81a664b, 0xc24b8b70, 0xc76c51a3, 0xd192e819, 0xd6990624, 0xf40e3585, 0x106aa070)
  const KW3 := Sixteen(
    0x19a4c116, 0x1e376c08, 0x2748774c, 0x34b0bcb5, 0x391c0cb3, 0x4ed8aa4a, 0x5b9cca4f, 0x682e6ff3, 0x748f82ee,
    0x78a5636f, 0x84c87814, 0x8cc70208, 0x90befffa, 0xa4506ceb, 0xbef9a3f7, 0xc67178f2)

  lemma Front(a: seq<bv32>, b: seq<bv32>, c: seq<bv32>, d: seq<bv32>, e: seq<bv32>, f: seq<bv32>, g: seq<bv32>)
    ensures forall i :: 0 <= i < |a| ==> (a + b + c + d + e + f + g)[i] == a[i]
  {
  }

  lemma Constants0()
    ensures Constants(0, KW0)
  {
    assert forall i :: 0 <= i < 16 ==> K[i] == (K0 + K1)[i] by { Front(K0 + K1, K2, K3, K4, K5, K6, K7); }
  }

  lemma Constants1()
    ensures Constants(16, KW1)
  {
  }

  lemma Constants2()
    ensures Constants(32, KW2)
  {
  }

  lemma Constants3()
    ensures Constants(48, KW3)
  {
  }

  /** The compression function, sixteen rounds at a time. */
  lemma CompressIs(hs: seq<bv32>, b: seq<byte>, s: Sixteen, s1: Sixteen, s2: Sixteen, s3: Sixteen)
    requires |hs| == 8 && |b| == 64 && Window(b, 0, s) && Next(s, s1) && Next(s1, s2) && Next(s2, s3)
    ensures Compress(hs, b) == Added(hs, Run(Run(Run(Run(VarsOf(hs), KW0, s), KW1, s1), KW2, s2), KW3, s3))
  {
    hide Window, Next, Run, Constants, Rounds, Added, VarsOf;
    var v := VarsOf(hs);
    RoundsNone(v, b);
    NextWindow(b, 0, s, s1);
    NextWindow(b, 16, s1, s2);
    NextWindow(b, 32, s2, s3);
    Constants0();
    Constants1();
    Constants2();
    Constants3();
    RunIs(v, b, 0, KW0, s);
    RunIs(v, b, 16, KW1, s1);
    RunIs(v, b, 32, KW2, s2);
    RunIs(v, b, 48, KW3, s3);
  }

  lemma RoundsNone(v: Vars, b: seq<byte>)
    requires |b| == 64
    ensures Rounds(v, b, 0) == v
  {
  }

  // ---- short messages -----------------------------------------------------

  /** Sixteen big-endian words. */
  lemma WindowOf(b: seq<byte>, s: Sixteen)
    requires |b| == 64
    requires WordAt(b, 0) == s.w0 && WordAt(b, 1) == s.w1 && WordAt(b, 2) == s.w2 && WordAt(b, 3) == s.w3
    requires WordAt(b, 4) == s.w4 && WordAt(b, 5) == s.w5 && WordAt(b, 6) == s.w6 && WordAt(b, 7) == s.w7
    requires WordAt(b, 8) == s.w8 && WordAt(b, 9) == s.w9 && WordAt(b, 10) == s.w10 && WordAt(b, 11) == s.w11
    requires WordAt(b, 12) == s.w12 && WordAt(b, 13) == s.w13 && WordAt(b, 14) == s.w14 && WordAt(b, 15) == s.w15
    ensures Window(b, 0, s)
  {
    hide WordAt;
  }

  /** Four bytes of a block, the word they make, and that word. */
  lemma FourBytes(b: seq<byte>, i: nat, p: byte, q: byte, r: byte, s: byte, w: bv32)
    requires 4 * i + 4 <= |b| && b[4 * i] == p && b[4 * i + 1] == q && b[4 * i + 2] == r && b[4 * i + 3] == s
    requires WordOf(p, q, r, s) == w
    ensures WordAt(b, i) == w
  {
    hide WordOf;
  }

  /** Equal bytes make equal words. */
  lemma EvenWords(b: seq<byte>, i: nat, n: nat, v: byte, w: bv32)
    requires 4 * n <= |b| && (forall j :: 4 * i <= j < 4 * n ==> b[j] == v) && WordOf(v, v, v, v) == w
    ensures forall k :: i <= k < n ==> WordAt(b, k) == w
  {
    hide WordOf;
  }

  lemma SmallLength(v: nat)
    requires v < 65536
    ensures Be64(v) == [0, 0, 0, 0, 0, 0, v / 256, v % 256]
  {
    hide Be64;
    HighByte(v, 0);
    HighByte(v, 1);
    HighByte(v, 2);
    HighByte(v, 3);
    HighByte(v, 4);
    HighByte(v, 5);
    LowBytes(v);
  }

  lemma HighByte(v: nat, k: nat)
    requires v < 65536 && k < 6
    ensures Be64(v)[k] == 0
  {
    hide Be64;
    assert Pow2(8) == 256;
    assert Pow2(16) == 65536;
    LengthByte(v, k);
    PowGrows(16, 8 * (7 - k));
    QuotientZero(v, Pow2(8 * (7 - k)));
  }

  lemma LowBytes(v: nat)
    requires v < 65536
    ensures Be64(v)[6] == v / 256 && Be64(v)[7] == v % 256
  {
    hide Be64;
    LengthByte(v, 6);
    LengthByte(v, 7);
    assert Pow2(0) == 1 && Pow2(8) == 256;
  }

  lemma QuotientZero(v: nat, p: nat)
    requires v < p
    ensures v / p == 0
  {
  }

  lemma {:induction false} PowGrows(m: nat, n: nat)
    requires m <= n
    ensures Pow2(m) <= Pow2(n)
  {
    if m < n { PowGrows(m, n - 1); }
  }

  /** A message of less than 56 bytes is one block. */
  lemma DigestShort(m: seq<byte>)
    requires |m| < 56
    ensures Digest(m) == BytesOf(Compress(IV, Tail(m, 8 * |m|)))
  {
    hide Compress, Tail, Pad, BytesOf;
    assert m[|m| - |m|..] == m && m[..0] == [];
    TailDigest(IV, m, m, Tail(m, 8 * |m|));
    assert Tail(m, 8 * |m|)[..64] == Tail(m, 8 * |m|);
  }

  /** A block and less than 56 bytes more are two. */
  lemma DigestLonger(b: seq<byte>, rest: seq<byte>)
    requires |b| == 64 && |rest| < 56
    ensures Digest(b + rest) == BytesOf(Compress(Compress(IV, b), Tail(rest, 8 * (64 + |rest|))))
  {
    hide Compress, Tail, Pad, BytesOf;
    var m := b + rest;
    assert m[..64] == b && m[64..] == rest;
    FoldStep(IV, [], b);
    assert [] + b == b;
    TailDigest(Compress(IV, b), rest, m, Tail(rest, 8 * |m|));
    assert Tail(rest, 8 * |m|)[..64] == Tail(rest, 8 * |m|);
  }

  /** Byte k of word i of a digest. */
  lemma {:induction false} BytesAt(h: seq<bv32>, i: nat, k: nat)
    requires i < |h| && k < 4
    ensures BytesOf(h)[4 * i + k] == Be32(h[i])[k]
  {
    hide Be32;
    if i < |h| - 1 { BytesAt(h[..|h| - 1], i, k); }
  }

  /** The most significant byte comes first. */
  lemma BigEndian()
    ensures Be32(0xba7816bf) == [0xba, 0x78, 0x16, 0xbf]
  {
  }

  // ---- the digest of "abc" -------------------------------------------------

  const ABC_W0 := Sixteen(
    0x61626380, 0, 0, 0, 0, 0, 0, 0, 0, 0, 0, 0, 0, 0, 0, 0x00000018)
  const ABC_W1 := Sixteen(
    0x61626380, 0x000f0000, 0x7da86405, 0x600003c6, 0x3e9d7b78, 0x0183fc00, 0x12dcbfdb, 0xe2e2c38e, 0xc8215c1a,
    0xb73679a2, 0xe5bc3909, 0x32663c5b, 0x9d209d67, 0xec8726cb, 0x702138a4, 0xd3b7973b)
  const ABC_W2 := Sixteen(
    0x93f5997f, 0x3b68ba73, 0xaff4ffc1, 0xf10a5c62, 0x0a8b3996, 0x72af830a, 0x9409e33e, 0x24641522, 0x9f47bf94,
    0xf0a64f5a, 0x3e246a79, 0x27333ba3, 0x0c4763f2, 0x840abf27, 0x7a290d5d, 0x065c43da)
  const ABC_W3 := Sixteen(
    0xfb3e89cb, 0xcc7617db, 0xb9e66c34, 0xa9993667, 0x84badedd, 0xc21462bc, 0x1487472c, 0xb20f7a99, 0xef57b9cd,
    0xebe6b238, 0x9fe3095e, 0x78bc8d4b, 0xa43fcf15, 0x668b2ff8, 0xeeaba2cc, 0x12b1edeb)
  const ABC_V0 :=
    Vars(0x6a09e667, 0xbb67ae85, 0x3c6ef372, 0xa54ff53a, 0x510e527f, 0x9b05688c, 0x1f83d9ab, 0x5be0cd19)
  const ABC_V1 :=
    Vars(0x85a07b5f, 0xe5030380, 0x2b4209f5, 0x04409a6a, 0x0c657a79, 0x9b27a401, 0x714260ad, 0x43ada245)
  const ABC_V2 :=
    Vars(0xb0fa238e, 0xc0645fde, 0xd932eb16, 0x87912990, 0x07590dcd, 0x0b92f20c, 0x745a48de, 0x1e578218)
  const ABC_V3 :=
    Vars(0xc5d53d8d, 0xa7a3623f, 0xc2606d6d, 0x9dc68b63, 0xaa47c347, 0x49f5114a, 0xe1257970, 0x8ada8930)
  const ABC_V4 :=
    Vars(0x73b33bf5, 0xea992a22, 0xa0060b30, 0x363482c9, 0xba591112, 0x0109ab3a, 0xade79437, 0x6112a3b7)
  const ABC_V5 :=
    Vars(0x79ea687a, 0x6dc57a8a, 0x34df1604, 0x41a65cb1, 0x1efbc0a0, 0xf0781bc8, 0xa507a53d, 0x0772a26b)
  const ABC_V6 :=
    Vars(0x4172328d, 0xa14c14b0, 0x72ab4b91, 0x26628815, 0xfecf0bc6, 0xd57b94a9, 0xb7755da1, 0xa80f11f0)
  const ABC_V7 :=
    Vars(0x38cc9913, 0x3ec45cdb, 0xf5702fdb, 0x101fd28f, 0x54cb266b, 0xe50e1b4f, 0x9f4787c3, 0x529e7d00)
  const ABC_V8 :=
    Vars(0x506e3058, 0xd39a2165, 0x04d24d6c, 0xb85e2ce9, 0x5ef50f24, 0xfb121210, 0x948d25b6, 0x961f4894)

  lemma ABC_SumsLow()
    ensures Sum4(SmallSigma1(0), 0, SmallSigma0(0), 0x61626380) == 0x61626380
    ensures Sum4(SmallSigma1(0x00000018), 0, SmallSigma0(0), 0) == 0x000f0000
    ensures Sum4(SmallSigma1(0x61626380), 0, SmallSigma0(0), 0) == 0x7da86405
    ensures Sum4(SmallSigma1(0x000f0000), 0, SmallSigma0(0), 0) == 0x600003c6
    ensures Sum4(SmallSigma1(0x7da86405), 0, SmallSigma0(0), 0) == 0x3e9d7b78
    ensures Sum4(SmallSigma1(0x600003c6), 0, SmallSigma0(0), 0) == 0x0183fc00
    ensures Sum4(SmallSigma1(0x3e9d7b78), 0x00000018, SmallSigma0(0), 0) == 0x12dcbfdb
    ensures Sum4(SmallSigma1(0x0183fc00), 0x61626380, SmallSigma0(0), 0) == 0xe2e2c38e
  {
  }

  lemma ABC_SumsHigh()
    ensures Sum4(SmallSigma1(0x12dcbfdb), 0x000f0000, SmallSigma0(0), 0) == 0xc8215c1a
    ensures Sum4(SmallSigma1(0xe2e2c38e), 0x7da86405, SmallSigma0(0), 0) == 0xb73679a2
    ensures Sum4(SmallSigma1(0xc8215c1a), 0x600003c6, SmallSigma0(0), 0) == 0xe5bc3909
    ensures Sum4(SmallSigma1(0xb73679a2), 0x3e9d7b78, SmallSigma0(0), 0) == 0x32663c5b
    ensures Sum4(SmallSigma1(0xe5bc3909), 0x0183fc00, SmallSigma0(0), 0) == 0x9d209d67
    ensures Sum4(SmallSigma1(0x32663c5b), 0x12dcbfdb, SmallSigma0(0), 0) == 0xec8726cb
    ensures Sum4(SmallSigma1(0x9d209d67), 0xe2e2c38e, SmallSigma0(0x00000018), 0) == 0x702138a4
    ensures Sum4(SmallSigma1(0xec8726cb), 0xc8215c1a, SmallSigma0(0x61626380), 0x00000018) == 0xd3b7973b
  {
  }

  lemma ABC_First()
    ensures Next(
      Sixteen(
        0x61626380, 0, 0, 0, 0, 0, 0, 0, 0, 0, 0, 0, 0, 0, 0, 0x00000018),
      Sixteen(
        0x61626380, 0x000f0000, 0x7da86405, 0x600003c6, 0x3e9d7b78, 0x0183fc00, 0x12dcbfdb, 0xe2e2c38e, 0xc8215c1a,
        0xb73679a2, 0xe5bc3909, 0x32663c5b, 0x9d209d67, 0xec8726cb, 0x702138a4, 0xd3b7973b))
  {
    hide Sum4, SmallSigma0, SmallSigma1;
    ABC_SumsLow();
    ABC_SumsHigh();
    NextWords(
        0x61626380, 0, 0, 0, 0, 0, 0, 0, 0, 0, 0, 0, 0, 0, 0, 0x00000018,
        0x61626380, 0x000f0000, 0x7da86405, 0x600003c6, 0x3e9d7b78, 0x0183fc00, 0x12dcbfdb, 0xe2e2c38e, 0xc8215c1a,
        0xb73679a2, 0xe5bc3909, 0x32663c5b, 0x9d209d67, 0xec8726cb, 0x702138a4, 0xd3b7973b);
  }

  lemma ABC_Next0()
    ensures Next(ABC_W0, ABC_W1)
  {
    hide Next, Sum4, SmallSigma0, SmallSigma1;
    ABC_First();
  }

  lemma ABC_Next1()
    ensures Next(ABC_W1, ABC_W2)
  {
    assert Sum4(SmallSigma1(0x702138a4), 0xb73679a2, SmallSigma0(0x000f0000), 0x61626380) == 0x93f5997f;
    assert Sum4(SmallSigma1(0xd3b7973b), 0xe5bc3909, SmallSigma0(0x7da86405), 0x000f0000) == 0x3b68ba73;
    assert Sum4(SmallSigma1(0x93f5997f), 0x32663c5b, SmallSigma0(0x600003c6), 0x7da86405) == 0xaff4ffc1;
    assert Sum4(SmallSigma1(0x3b68ba73), 0x9d209d67, SmallSigma0(0x3e9d7b78), 0x600003c6) == 0xf10a5c62;
    assert Sum4(SmallSigma1(0xaff4ffc1), 0xec8726cb, SmallSigma0(0x0183fc00), 0x3e9d7b78) == 0x0a8b3996;
    assert Sum4(SmallSigma1(0xf10a5c62), 0x702138a4, SmallSigma0(0x12dcbfdb), 0x0183fc00) == 0x72af830a;
    assert Sum4(SmallSigma1(0x0a8b3996), 0xd3b7973b, SmallSigma0(0xe2e2c38e), 0x12dcbfdb) == 0x9409e33e;
    assert Sum4(SmallSigma1(0x72af830a), 0x93f5997f, SmallSigma0(0xc8215c1a), 0xe2e2c38e) == 0x24641522;
    assert Sum4(SmallSigma1(0x9409e33e), 0x3b68ba73, SmallSigma0(0xb73679a2), 0xc8215c1a) == 0x9f47bf94;
    assert Sum4(SmallSigma1(0x24641522), 0xaff4ffc1, SmallSigma0(0xe5bc3909), 0xb73679a2) == 0xf0a64f5a;
    assert Sum4(SmallSigma1(0x9f47bf94), 0xf10a5c62, SmallSigma0(0x32663c5b), 0xe5bc3909) == 0x3e246a79;
    assert Sum4(SmallSigma1(0xf0a64f5a), 0x0a8b3996, SmallSigma0(0x9d209d67), 0x32663c5b) == 0x27333ba3;
    assert Sum4(SmallSigma1(0x3e246a79), 0x72af830a, SmallSigma0(0xec8726cb), 0x9d209d67) == 0x0c4763f2;
    assert Sum4(SmallSigma1(0x27333ba3), 0x9409e33e, SmallSigma0(0x702138a4), 0xec8726cb) == 0x840abf27;
    assert Sum4(SmallSigma1(0x0c4763f2), 0x24641522, SmallSigma0(0xd3b7973b), 0x702138a4) == 0x7a290d5d;
    assert Sum4(SmallSigma1(0x840abf27), 0x9f47bf94, SmallSigma0(0x93f5997f), 0xd3b7973b) == 0x065c43da;
    hide Sum4, SmallSigma0, SmallSigma1;
  }

  lemma ABC_Next2()
    ensures Next(ABC_W2, ABC_W3)
  {
    assert Sum4(SmallSigma1(0x7a290d5d), 0xf0a64f5a, SmallSigma0(0x3b68ba73), 0x93f5997f) == 0xfb3e89cb;
    assert Sum4(SmallSigma1(0x065c43da), 0x3e246a79, SmallSigma0(0xaff4ffc1), 0x3b68ba73) == 0xcc7617db;
    assert Sum4(SmallSigma1(0xfb3e89cb), 0x27333ba3, SmallSigma0(0xf10a5c62), 0xaff4ffc1) == 0xb9e66c34;
    assert Sum4(SmallSigma1(0xcc7617db), 0x0c4763f2, SmallSigma0(0x0a8b3996), 0xf10a5c62) == 0xa9993667;
    assert Sum4(SmallSigma1(0xb9e66c34), 0x840abf27, SmallSigma0(0x72af830a), 0x0a8b3996) == 0x84badedd;
    assert Sum4(SmallSigma1(0xa9993667), 0x7a290d5d, SmallSigma0(0x9409e33e), 0x72af830a) == 0xc21462bc;
    assert Sum4(SmallSigma1(0x84badedd), 0x065c43da, SmallSigma0(0x24641522), 0x9409e33e) == 0x1487472c;
    assert Sum4(SmallSigma1(0xc21462bc), 0xfb3e89cb, SmallSigma0(0x9f47bf94), 0x24641522) == 0xb20f7a99;
    assert Sum4(SmallSigma1(0x1487472c), 0xcc7617db, SmallSigma0(0xf0a64f5a), 0x9f47bf94) == 0xef57b9cd;
    assert Sum4(SmallSigma1(0xb20f7a99), 0xb9e66c34, SmallSigma0(0x3e246a79), 0xf0a64f5a) == 0xebe6b238;
    assert Sum4(SmallSigma1(0xef57b9cd), 0xa9993667, SmallSigma0(0x27333ba3), 0x3e246a79) == 0x9fe3095e;
    assert Sum4(SmallSigma1(0xebe6b238), 0x84badedd, SmallSigma0(0x0c4763f2), 0x27333ba3) == 0x78bc8d4b;
    assert Sum4(SmallSigma1(0x9fe3095e), 0xc21462bc, SmallSigma0(0x840abf27), 0x0c4763f2) == 0xa43fcf15;
    assert Sum4(SmallSigma1(0x78bc8d4b), 0x1487472c, SmallSigma0(0x7a290d5d), 0x840abf27) == 0x668b2ff8;
    assert Sum4(SmallSigma1(0xa43fcf15), 0xb20f7a99, SmallSigma0(0x065c43da), 0x7a290d5d) == 0xeeaba2cc;
    assert Sum4(SmallSigma1(0x668b2ff8), 0xef57b9cd, SmallSigma0(0xfb3e89cb), 0x065c43da) == 0x12b1edeb;
    hide Sum4, SmallSigma0, SmallSigma1;
  }

  lemma ABC_Run0()
    ensures RunLow(ABC_V0, KW0, ABC_W0) == ABC_V1
  {
    assert Gives(Vars(0x6a09e667, 0xbb67ae85, 0x3c6ef372, 0xa54ff53a, 0x510e527f, 0x9b05688c, 0x1f83d9ab, 0x5be0cd19),
                 0x428a2f98, 0x61626380, 0x5d6aebcd, 0xfa2a4622);
    assert Gives(Vars(0x5d6aebcd, 0x6a09e667, 0xbb67ae85, 0x3c6ef372, 0xfa2a4622, 0x510e527f, 0x9b05688c, 0x1f83d9ab),
                 0x71374491, 0, 0x5a6ad9ad, 0x78ce7989);
    assert Gives(Vars(0x5a6ad9ad, 0x5d6aebcd, 0x6a09e667, 0xbb67ae85, 0x78ce7989, 0xfa2a4622, 0x510e527f, 0x9b05688c),
                 0xb5c0fbcf, 0, 0xc8c347a7, 0xf92939eb);
    assert Gives(Vars(0xc8c347a7, 0x5a6ad9ad, 0x5d6aebcd, 0x6a09e667, 0xf92939eb, 0x78ce7989, 0xfa2a4622, 0x510e527f),
                 0xe9b5dba5, 0, 0xd550f666, 0x24e00850);
    assert Gives(Vars(0xd550f666, 0xc8c347a7, 0x5a6ad9ad, 0x5d6aebcd, 0x24e00850, 0xf92939eb, 0x78ce7989, 0xfa2a4622),
                 0x3956c25b, 0, 0x04409a6a, 0x43ada245);
    assert Gives(Vars(0x04409a6a, 0xd550f666, 0xc8c347a7, 0x5a6ad9ad, 0x43ada245, 0x24e00850, 0xf92939eb, 0x78ce7989),
                 0x59f111f1, 0, 0x2b4209f5, 0x714260ad);
    assert Gives(Vars(0x2b4209f5, 0x04409a6a, 0xd550f666, 0xc8c347a7, 0x714260ad, 0x43ada245, 0x24e00850, 0xf92939eb),
                 0x923f82a4, 0, 0xe5030380, 0x9b27a401);
    assert Gives(Vars(0xe5030380, 0x2b4209f5, 0x04409a6a, 0xd550f666, 0x9b27a401, 0x714260ad, 0x43ada245, 0x24e00850),
                 0xab1c5ed5, 0, 0x85a07b5f, 0x0c657a79);
    hide Round;
  }

  lemma ABC_Run1()
    ensures RunHigh(ABC_V1, KW0, ABC_W0) == ABC_V2
  {
    assert Gives(Vars(0x85a07b5f, 0xe5030380, 0x2b4209f5, 0x04409a6a, 0x0c657a79, 0x9b27a401, 0x714260ad, 0x43ada245),
                 0xd807aa98, 0, 0x8e04ecb9, 0x32ca2d8c);
    assert Gives(Vars(0x8e04ecb9, 0x85a07b5f, 0xe5030380, 0x2b4209f5, 0x32ca2d8c, 0x0c657a79, 0x9b27a401, 0x714260ad),
                 0x12835b01, 0, 0x8c87346b, 0x1cc92596);
    assert Gives(Vars(0x8c87346b, 0x8e04ecb9, 0x85a07b5f, 0xe5030380, 0x1cc92596, 0x32ca2d8c, 0x0c657a79, 0x9b27a401),
                 0x243185be, 0, 0x4798a3f4, 0x436b23e8);
    assert Gives(Vars(0x4798a3f4, 0x8c87346b, 0x8e04ecb9, 0x85a07b5f, 0x436b23e8, 0x1cc92596, 0x32ca2d8c, 0x0c657a79),
                 0x550c7dc3, 0, 0xf71fc5a9, 0x816fd6e9);
    assert Gives(Vars(0xf71fc5a9, 0x4798a3f4, 0x8c87346b, 0x8e04ecb9, 0x816fd6e9, 0x436b23e8, 0x1cc92596, 0x32ca2d8c),
                 0x72be5d74, 0, 0x87912990, 0x1e578218);
    assert Gives(Vars(0x87912990, 0xf71fc5a9, 0x4798a3f4, 0x8c87346b, 0x1e578218, 0x816fd6e9, 0x436b23e8, 0x1cc92596),
                 0x80deb1fe, 0, 0xd932eb16, 0x745a48de);
    assert Gives(Vars(0xd932eb16, 0x87912990, 0xf71fc5a9, 0x4798a3f4, 0x745a48de, 0x1e578218, 0x816fd6e9, 0x436b23e8),
                 0x9bdc06a7, 0, 0xc0645fde, 0x0b92f20c);
    assert Gives(Vars(0xc0645fde, 0xd932eb16, 0x87912990, 0xf71fc5a9, 0x0b92f20c, 0x745a48de, 0x1e578218, 0x816fd6e9),
                 0xc19bf174, 0x00000018, 0xb0fa238e, 0x07590dcd);
    hide Round;
  }

  lemma ABC_Run2()
    ensures RunLow(ABC_V2, KW1, ABC_W1) == ABC_V3
  {
    assert Gives(Vars(0xb0fa238e, 0xc0645fde, 0xd932eb16, 0x87912990, 0x07590dcd, 0x0b92f20c, 0x745a48de, 0x1e578218),
                 0xe49b69c1, 0x61626380, 0x21da9a9b, 0x8034229c);
    assert Gives(Vars(0x21da9a9b, 0xb0fa238e, 0xc0645fde, 0xd932eb16, 0x8034229c, 0x07590dcd, 0x0b92f20c, 0x745a48de),
                 0xefbe4786, 0x000f0000, 0xc2fbd9d1, 0x846ee454);
    assert Gives(Vars(0xc2fbd9d1, 0x21da9a9b, 0xb0fa238e, 0xc0645fde, 0x846ee454, 0x8034229c, 0x07590dcd, 0x0b92f20c),
                 0x0fc19dc6, 0x7da86405, 0xfe777bbf, 0xcc899961);
    assert Gives(Vars(0xfe777bbf, 0xc2fbd9d1, 0x21da9a9b, 0xb0fa238e, 0xcc899961, 0x846ee454, 0x8034229c, 0x07590dcd),
                 0x240ca1cc, 0x600003c6, 0xe1f20c33, 0xb0638179);
    assert Gives(Vars(0xe1f20c33, 0xfe777bbf, 0xc2fbd9d1, 0x21da9a9b, 0xb0638179, 0xcc899961, 0x846ee454, 0x8034229c),
                 0x2de92c6f, 0x3e9d7b78, 0x9dc68b63, 0x8ada8930);
    assert Gives(Vars(0x9dc68b63, 0xe1f20c33, 0xfe777bbf, 0xc2fbd9d1, 0x8ada8930, 0xb0638179, 0xcc899961, 0x846ee454),
                 0x4a7484aa, 0x0183fc00, 0xc2606d6d, 0xe1257970);
    assert Gives(Vars(0xc2606d6d, 0x9dc68b63, 0xe1f20c33, 0xfe777bbf, 0xe1257970, 0x8ada8930, 0xb0638179, 0xcc899961),
                 0x5cb0a9dc, 0x12dcbfdb, 0xa7a3623f, 0x49f5114a);
    assert Gives(Vars(0xa7a3623f, 0xc2606d6d, 0x9dc68b63, 0xe1f20c33, 0x49f5114a, 0xe1257970, 0x8ada8930, 0xb0638179),
                 0x76f988da, 0xe2e2c38e, 0xc5d53d8d, 0xaa47c347);
    hide Round;
  }

  lemma ABC_Run3()
    ensures RunHigh(ABC_V3, KW1, ABC_W1) == ABC_V4
  {
    assert Gives(Vars(0xc5d53d8d, 0xa7a3623f, 0xc2606d6d, 0x9dc68b63, 0xaa47c347, 0x49f5114a, 0xe1257970, 0x8ada8930),
                 0x983e5152, 0xc8215c1a, 0x1c2c2838, 0x2823ef91);
    assert Gives(Vars(0x1c2c2838, 0xc5d53d8d, 0xa7a3623f, 0xc2606d6d, 0x2823ef91, 0xaa47c347, 0x49f5114a, 0xe1257970),
                 0xa831c66d, 0xb73679a2, 0xcde8037d, 0x14383d8e);
    assert Gives(Vars(0xcde8037d, 0x1c2c2838, 0xc5d53d8d, 0xa7a3623f, 0x14383d8e, 0x2823ef91, 0xaa47c347, 0x49f5114a),
                 0xb00327c8, 0xe5bc3909, 0xb62ec4bc, 0xc74c6516);
    assert Gives(Vars(0xb62ec4bc, 0xcde8037d, 0x1c2c2838, 0xc5d53d8d, 0xc74c6516, 0x14383d8e, 0x2823ef91, 0xaa47c347),
                 0xbf597fc7, 0x32663c5b, 0x77d37528, 0xedffbff8);
    assert Gives(Vars(0x77d37528, 0xb62ec4bc, 0xcde8037d, 0x1c2c2838, 0xedffbff8, 0xc74c6516, 0x14383d8e, 0x2823ef91),
                 0xc6e00bf3, 0x9d209d67, 0x363482c9, 0x6112a3b7);
    assert Gives(Vars(0x363482c9, 0x77d37528, 0xb62ec4bc, 0xcde8037d, 0x6112a3b7, 0xedffbff8, 0xc74c6516, 0x14383d8e),
                 0xd5a79147, 0xec8726cb, 0xa0060b30, 0xade79437);
    assert Gives(Vars(0xa0060b30, 0x363482c9, 0x77d37528, 0xb62ec4bc, 0xade79437, 0x6112a3b7, 0xedffbff8, 0xc74c6516),
                 0x06ca6351, 0x702138a4, 0xea992a22, 0x0109ab3a);
    assert Gives(Vars(0xea992a22, 0xa0060b30, 0x363482c9, 0x77d37528, 0x0109ab3a, 0xade79437, 0x6112a3b7, 0xedffbff8),
                 0x14292967, 0xd3b7973b, 0x73b33bf5, 0xba591112);
    hide Round;
  }

  lemma ABC_Run4()
    ensures RunLow(ABC_V4, KW2, ABC_W2) == ABC_V5
  {
    assert Gives(Vars(0x73b33bf5, 0xea992a22, 0xa0060b30, 0x363482c9, 0xba591112, 0x0109ab3a, 0xade79437, 0x6112a3b7),
                 0x27b70a85, 0x93f5997f, 0x98e12507, 0x9cd9f5f6);
    assert Gives(Vars(0x98e12507, 0x73b33bf5, 0xea992a22, 0xa0060b30, 0x9cd9f5f6, 0xba591112, 0x0109ab3a, 0xade79437),
                 0x2e1b2138, 0x3b68ba73, 0xfe604df5, 0x59249dd3);
    assert Gives(Vars(0xfe604df5, 0x98e12507, 0x73b33bf5, 0xea992a22, 0x59249dd3, 0x9cd9f5f6, 0xba591112, 0x0109ab3a),
                 0x4d2c6dfc, 0xaff4ffc1, 0xa9a7738c, 0x085f3833);
    assert Gives(Vars(0xa9a7738c, 0xfe604df5, 0x98e12507, 0x73b33bf5, 0x085f3833, 0x59249dd3, 0x9cd9f5f6, 0xba591112),
                 0x53380d13, 0xf10a5c62, 0x65a0cfe4, 0xf4b002d6);
    assert Gives(Vars(0x65a0cfe4, 0xa9a7738c, 0xfe604df5, 0x98e12507, 0xf4b002d6, 0x085f3833, 0x59249dd3, 0x9cd9f5f6),
                 0x650a7354, 0x0a8b3996, 0x41a65cb1, 0x0772a26b);
    assert Gives(Vars(0x41a65cb1, 0x65a0cfe4, 0xa9a7738c, 0xfe604df5, 0x0772a26b, 0xf4b002d6, 0x085f3833, 0x59249dd3),
                 0x766a0abb, 0x72af830a, 0x34df1604, 0xa507a53d);
    assert Gives(Vars(0x34df1604, 0x41a65cb1, 0x65a0cfe4, 0xa9a7738c, 0xa507a53d, 0x0772a26b, 0xf4b002d6, 0x085f3833),
                 0x81c2c92e, 0x9409e33e, 0x6dc57a8a, 0xf0781bc8);
    assert Gives(Vars(0x6dc57a8a, 0x34df1604, 0x41a65cb1, 0x65a0cfe4, 0xf0781bc8, 0xa507a53d, 0x0772a26b, 0xf4b002d6),
                 0x92722c85, 0x24641522, 0x79ea687a, 0x1efbc0a0);
    hide Round;
  }

  lemma ABC_Run5()
    ensures RunHigh(ABC_V5, KW2, ABC_W2) == ABC_V6
  {
    assert Gives(Vars(0x79ea687a, 0x6dc57a8a, 0x34df1604, 0x41a65cb1, 0x1efbc0a0, 0xf0781bc8, 0xa507a53d, 0x0772a26b),
                 0xa2bfe8a1, 0x9f47bf94, 0xd6670766, 0x26352d63);
    assert Gives(Vars(0xd6670766, 0x79ea687a, 0x6dc57a8a, 0x34df1604, 0x26352d63, 0x1efbc0a0, 0xf0781bc8, 0xa507a53d),
                 0xa81a664b, 0xf0a64f5a, 0xdf46652f, 0x838b2711);
    assert Gives(Vars(0xdf46652f, 0xd6670766, 0x79ea687a, 0x6dc57a8a, 0x838b2711, 0x26352d63, 0x1efbc0a0, 0xf0781bc8),
                 0xc24b8b70, 0x3e246a79, 0x17aa0dfe, 0xdecd4715);
    assert Gives(Vars(0x17aa0dfe, 0xdf46652f, 0xd6670766, 0x79ea687a, 0xdecd4715, 0x838b2711, 0x26352d63, 0x1efbc0a0),
                 0xc76c51a3, 0x27333ba3, 0x9d4baf93, 0xfda24c2e);
    assert Gives(Vars(0x9d4baf93, 0x17aa0dfe, 0xdf46652f, 0xd6670766, 0xfda24c2e, 0xdecd4715, 0x838b2711, 0x26352d63),
                 0xd192e819, 0x0c4763f2, 0x26628815, 0xa80f11f0);
    assert Gives(Vars(0x26628815, 0x9d4baf93, 0x17aa0dfe, 0xdf46652f, 0xa80f11f0, 0xfda24c2e, 0xdecd4715, 0x838b2711),
                 0xd6990624, 0x840abf27, 0x72ab4b91, 0xb7755da1);
    assert Gives(Vars(0x72ab4b91, 0x26628815, 0x9d4baf93, 0x17aa0dfe, 0xb7755da1, 0xa80f11f0, 0xfda24c2e, 0xdecd4715),
                 0xf40e3585, 0x7a290d5d, 0xa14c14b0, 0xd57b94a9);
    assert Gives(Vars(0xa14c14b0, 0x72ab4b91, 0x26628815, 0x9d4baf93, 0xd57b94a9, 0xb7755da1, 0xa80f11f0, 0xfda24c2e),
                 0x106aa070, 0x065c43da, 0x4172328d, 0xfecf0bc6);
    hide Round;
  }

  lemma ABC_Run6()
    ensures RunLow(ABC_V6, KW3, ABC_W3) == ABC_V7
  {
    assert Gives(Vars(0x4172328d, 0xa14c14b0, 0x72ab4b91, 0x26628815, 0xfecf0bc6, 0xd57b94a9, 0xb7755da1, 0xa80f11f0),
                 0x19a4c116, 0xfb3e89cb, 0x05757ceb, 0xbd714038);
    assert Gives(Vars(0x05757ceb, 0x4172328d, 0xa14c14b0, 0x72ab4b91, 0xbd714038, 0xfecf0bc6, 0xd57b94a9, 0xb7755da1),
                 0x1e376c08, 0xcc7617db, 0xf11bfaa8, 0x6e5c390c);
    assert Gives(Vars(0xf11bfaa8, 0x05757ceb, 0x4172328d, 0xa14c14b0, 0x6e5c390c, 0xbd714038, 0xfecf0bc6, 0xd57b94a9),
                 0x2748774c, 0xb9e66c34, 0x7a0508a1, 0x52f1ccf7);
    assert Gives(Vars(0x7a0508a1, 0xf11bfaa8, 0x05757ceb, 0x4172328d, 0x52f1ccf7, 0x6e5c390c, 0xbd714038, 0xfecf0bc6),
                 0x34b0bcb5, 0xa9993667, 0x886e7a22, 0x49231c1e);
    assert Gives(Vars(0x886e7a22, 0x7a0508a1, 0xf11bfaa8, 0x05757ceb, 0x49231c1e, 0x52f1ccf7, 0x6e5c390c, 0xbd714038),
                 0x391c0cb3, 0x84badedd, 0x101fd28f, 0x529e7d00);
    assert Gives(Vars(0x101fd28f, 0x886e7a22, 0x7a0508a1, 0xf11bfaa8, 0x529e7d00, 0x49231c1e, 0x52f1ccf7, 0x6e5c390c),
                 0x4ed8aa4a, 0xc21462bc, 0xf5702fdb, 0x9f4787c3);
    assert Gives(Vars(0xf5702fdb, 0x101fd28f, 0x886e7a22, 0x7a0508a1, 0x9f4787c3, 0x529e7d00, 0x49231c1e, 0x52f1ccf7),
                 0x5b9cca4f, 0x1487472c, 0x3ec45cdb, 0xe50e1b4f);
    assert Gives(Vars(0x3ec45cdb, 0xf5702fdb, 0x101fd28f, 0x886e7a22, 0xe50e1b4f, 0x9f4787c3, 0x529e7d00, 0x49231c1e),
                 0x682e6ff3, 0xb20f7a99, 0x38cc9913, 0x54cb266b);
    hide Round;
  }

  lemma ABC_Run7()
    ensures RunHigh(ABC_V7, KW3, ABC_W3) == ABC_V8
  {
    assert Gives(Vars(0x38cc9913, 0x3ec45cdb, 0xf5702fdb, 0x101fd28f, 0x54cb266b, 0xe50e1b4f, 0x9f4787c3, 0x529e7d00),
                 0x748f82ee, 0xef57b9cd, 0xfcd1887b, 0x9b5e906c);
    assert Gives(Vars(0xfcd1887b, 0x38cc9913, 0x3ec45cdb, 0xf5702fdb, 0x9b5e906c, 0x54cb266b, 0xe50e1b4f, 0x9f4787c3),
                 0x78a5636f, 0xebe6b238, 0xc062d46f, 0x7e44008e);
    assert Gives(Vars(0xc062d46f, 0xfcd1887b, 0x38cc9913, 0x3ec45cdb, 0x7e44008e, 0x9b5e906c, 0x54cb266b, 0xe50e1b4f),
                 0x84c87814, 0x9fe3095e, 0xffb70472, 0x6d83bfc6);
    assert Gives(Vars(0xffb70472, 0xc062d46f, 0xfcd1887b, 0x38cc9913, 0x6d83bfc6, 0x7e44008e, 0x9b5e906c, 0x54cb266b),
                 0x8cc70208, 0x78bc8d4b, 0xb6ae8fff, 0xb21bad3d);
    assert Gives(Vars(0xb6ae8fff, 0xffb70472, 0xc062d46f, 0xfcd1887b, 0xb21bad3d, 0x6d83bfc6, 0x7e44008e, 0x9b5e906c),
                 0x90befffa, 0xa43fcf15, 0xb85e2ce9, 0x961f4894);
    assert Gives(Vars(0xb85e2ce9, 0xb6ae8fff, 0xffb70472, 0xc062d46f, 0x961f4894, 0xb21bad3d, 0x6d83bfc6, 0x7e44008e),
                 0xa4506ceb, 0x668b2ff8, 0x04d24d6c, 0x948d25b6);
    assert Gives(Vars(0x04d24d6c, 0xb85e2ce9, 0xb6ae8fff, 0xffb70472, 0x948d25b6, 0x961f4894, 0xb21bad3d, 0x6d83bfc6),
                 0xbef9a3f7, 0xeeaba2cc, 0xd39a2165, 0xfb121210);
    assert Gives(Vars(0xd39a2165, 0x04d24d6c, 0xb85e2ce9, 0xb6ae8fff, 0xfb121210, 0x948d25b6, 0x961f4894, 0xb21bad3d),
                 0xc67178f2, 0x12b1edeb, 0x506e3058, 0x5ef50f24);
    hide Round;
  }

  const ABC_OUT: seq<bv32> :=
    [0xba7816bf, 0x8f01cfea, 0x414140de, 0x5dae2223, 0xb00361a3, 0x96177a9c, 0xb410ff61, 0xf20015ad]

  lemma ABC_Compress(b: seq<byte>)
    requires |b| == 64 && Window(b, 0, ABC_W0)
    ensures Compress(IV, b) == ABC_OUT
  {
    ABC_Next0();
    ABC_Next1();
    ABC_Next2();
    ABC_Run0();
    ABC_Run1();
    ABC_Run2();
    ABC_Run3();
    ABC_Run4();
    ABC_Run5();
    ABC_Run6();
    ABC_Run7();
    hide Next, RunLow, RunHigh, Window;
    assert VarsOf(IV) == ABC_V0;
    CompressIs(IV, b, ABC_W0, ABC_W1, ABC_W2, ABC_W3);
    ABC_Added();
  }

  lemma ABC_Added()
    ensures Added(IV, ABC_V8) == ABC_OUT
  {
    var r := Added(IV, ABC_V8);
    assert r[0] == ABC_OUT[0] && r[1] == ABC_OUT[1] && r[2] == ABC_OUT[2] && r[3] == ABC_OUT[3];
    assert r[4] == ABC_OUT[4] && r[5] == ABC_OUT[5] && r[6] == ABC_OUT[6] && r[7] == ABC_OUT[7];
  }

  lemma ABC_Words(b: seq<byte>)
    requires |b| == 64 && b[0] == 97 && b[1] == 98 && b[2] == 99 && b[3] == 0x80 && b[63] == 24
    requires forall i :: 4 <= i < 63 ==> b[i] == 0
    ensures Window(b, 0, ABC_W0)
  {
    hide Window, WordAt, WordOf;
    ABC_Ends(b);
    ABC_Zeros(b);
    WindowOf(b, ABC_W0);
  }

  lemma ABC_Ends(b: seq<byte>)
    requires |b| == 64 && b[0] == 97 && b[1] == 98 && b[2] == 99 && b[3] == 0x80
    requires b[60] == b[61] == b[62] == 0 && b[63] == 24
    ensures WordAt(b, 0) == 0x61626380 && WordAt(b, 15) == 24
  {
    hide WordAt;
    FourBytes(b, 0, 97, 98, 99, 0x80, 0x61626380);
    FourBytes(b, 15, 0, 0, 0, 24, 24);
  }

  lemma ABC_Zeros(b: seq<byte>)
    requires |b| == 64 && forall i :: 4 <= i < 60 ==> b[i] == 0
    ensures forall k :: 1 <= k < 15 ==> WordAt(b, k) == 0
  {
    hide WordAt;
    EvenWords(b, 1, 15, 0, 0);
  }

  lemma ABC_Tail()
    ensures Window(Tail([97, 98, 99], 24), 0, ABC_W0)
  {
    hide Window, Be64;
    SmallLength(24);
    ABC_Words(Tail([97, 98, 99], 24));
  }

  /** The one-block example of the standard: the digest of "abc", most significant byte first. */
  lemma DigestOfAbc()
    ensures Digest([97, 98, 99])
            == BytesOf([0xba7816bf, 0x8f01cfea, 0x414140de, 0x5dae2223, 0xb00361a3, 0x96177a9c, 0xb410ff61, 0xf20015ad])
  {
    hide Compress, Tail, Digest, BytesOf, Window;
    ABC_Tail();
    DigestShort([97, 98, 99]);
    ABC_Compress(Tail([97, 98, 99], 24));
  }
}
