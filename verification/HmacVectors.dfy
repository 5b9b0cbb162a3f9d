/** HMAC-SHA256 worked out: test case 1 of RFC 4231. */
module HmacVectors {
  import opened Common
  import opened Sha256
  import opened Sha256Vectors
  import opened Hmac

  // ---- the key blocks -----------------------------------------------------

  /** Twenty bytes 0x0b, and the text "Hi There". */
  const KEY: seq<byte> := seq(20, _ => 0x0b)
  const TEXT: seq<byte> := [0x48, 0x69, 0x20, 0x54, 0x68, 0x65, 0x72, 0x65]

  lemma {:induction false} MaskedAt(k: seq<byte>, pad: byte, i: nat)
    requires i < |k|
    ensures Masked(k, pad)[i] == Xor(k[i], pad)
  {
    hide Xor;
    if i < |k| - 1 { MaskedAt(k[..|k| - 1], pad, i); }
  }

  lemma {:induction false} XorZero(b: nat, n: nat)
    requires b < Pow2(n)
    ensures XorBits(0, b, n) == b
  {
    if n > 0 { XorZero(b / 2, n - 1); }
  }

  lemma PadBytes()
    ensures Xor(0x0b, IPAD) == 0x3d && Xor(0, IPAD) == 0x36 && Xor(0x0b, OPAD) == 0x57 && Xor(0, OPAD) == 0x5c
  {
    assert Pow2(4) == 16 && Pow2(5) == 32 && Pow2(8) == 256;
    XorZero(0x36, 8);
    XorZero(0x5c, 8);
    XorZero(3, 4);
    XorZero(5, 4);
    assert XorBits(1, 6, 5) == 7 && XorBits(2, 13, 6) == 15 && XorBits(5, 27, 7) == 30;
    assert XorBits(1, 11, 5) == 10 && XorBits(2, 23, 6) == 21 && XorBits(5, 46, 7) == 43;
  }

  /** The padded key: twenty bytes of one kind, the rest of another. */
  lemma PadBlock(b: seq<byte>, pad: byte, x: byte, z: byte)
    requires b == Masked(BlockKey(KEY), pad) && x == Xor(0x0b, pad) && z == Xor(0, pad)
    ensures |b| == 64 && (forall i :: 0 <= i < 20 ==> b[i] == x) && forall i :: 20 <= i < 64 ==> b[i] == z
  {
    hide Xor, Digest;
    var k := BlockKey(KEY);
    forall i | 0 <= i < 64 ensures b[i] == Xor(k[i], pad) { MaskedAt(k, pad, i); }
  }

  // ---- the inner digest ---------------------------------------------------

  const INNER0_W0 := Sixteen(
    0x3d3d3d3d, 0x3d3d3d3d, 0x3d3d3d3d, 0x3d3d3d3d, 0x3d3d3d3d, 0x36363636, 0x36363636, 0x36363636, 0x36363636,
    0x36363636, 0x36363636, 0x36363636, 0x36363636, 0x36363636, 0x36363636, 0x36363636)
  const INNER0_W1 := Sixteen(
    0x83d65655, 0x83d65655, 0x87c68a09, 0x87c68a09, 0xeefe9d53, 0xe7f7964c, 0xf0cbc89a, 0xdb09c692, 0x3e95c840,
    0x80d1dbfa, 0x024ba550, 0xe2fe1eb4, 0xab57872e, 0xdadd789e, 0x2bbf790f, 0xb71e0674)
  const INNER0_W2 := Sixteen(
    0x873cd858, 0xeb704436, 0x034082b0, 0x7b1c5b2d, 0x7b8d0bf1, 0x94833806, 0x1bf5dea0, 0x532cf446, 0x126e3965,
    0xb1eb6aea, 0x4b39b8c5, 0xe08793f5, 0xa40d251e, 0xf7f32031, 0x3302c428, 0x55af3d1c)
  const INNER0_W3 := Sixteen(
    0xd57b7564, 0xf0a55a2b, 0xfb52b288, 0xd51114e5, 0x5464a6e1, 0xa5426731, 0xf53108fe, 0xee307fff, 0xc25593fe,
    0xcb39bada, 0xaf277f26, 0x7f7f4555, 0x4ec9d7b1, 0x1e504a7d, 0xefca2da1, 0x52d83722)
  const INNER0_V0 :=
    Vars(0x6a09e667, 0xbb67ae85, 0x3c6ef372, 0xa54ff53a, 0x510e527f, 0x9b05688c, 0x1f83d9ab, 0x5be0cd19)
  const INNER0_V1 :=
    Vars(0x1a5a8c04, 0xc6a488e5, 0xb8400306, 0xba938604, 0xcbc23cd3, 0x2f80792b, 0x72a6dc02, 0x3e1a087f)
  const INNER0_V2 :=
    Vars(0x3cb5eea0, 0xe7bbdb4a, 0x1c4ee0bb, 0x30cf6137, 0xcd45c4de, 0x9ef1aa08, 0x5e2bc040, 0x0a66e9a1)
  const INNER0_V3 :=
    Vars(0x34bae976, 0xc6904c45, 0x11fed411, 0xbc841005, 0x5bf4daa8, 0x99cee3c5, 0x63ee67e3, 0x61ff708f)
  const INNER0_V4 :=
    Vars(0x89c99f7f, 0x421f94e7, 0x94973530, 0xd7f8f942, 0x5860fd1c, 0xf416698f, 0x47b3e625, 0x8c3269bc)
  const INNER0_V5 :=
    Vars(0xc1370725, 0x4d57f16b, 0xb48302f8, 0xc0de7d8c, 0x814b8026, 0x91d64179, 0x6d479276, 0xdc41e25e)
  const INNER0_V6 :=
    Vars(0x6f531cbc, 0xd0d0b35f, 0xf906089e, 0x335edc8b, 0x1ea9ce99, 0x59f06a6b, 0x41c1983c, 0xa7ee4566)
  const INNER0_V7 :=
    Vars(0xe51ef32d, 0xecef4474, 0xb989964d, 0xda50cec8, 0xdc0fa4f8, 0x5d840fd2, 0xf9943f4f, 0xb0eafb95)
  const INNER0_V8 :=
    Vars(0xc1a8319d, 0x6851ad74, 0x7879321a, 0x5565f11a, 0xc0e43f9f, 0xb4e61062, 0x790d0c53, 0x08d6b31d)

  lemma INNER0_Next0()
    ensures Next(INNER0_W0, INNER0_W1)
  {
    assert Sum4(SmallSigma1(0x36363636), 0x36363636, SmallSigma0(0x3d3d3d3d), 0x3d3d3d3d) == 0x83d65655;
    assert Sum4(SmallSigma1(0x36363636), 0x36363636, SmallSigma0(0x3d3d3d3d), 0x3d3d3d3d) == 0x83d65655;
    assert Sum4(SmallSigma1(0x83d65655), 0x36363636, SmallSigma0(0x3d3d3d3d), 0x3d3d3d3d) == 0x87c68a09;
    assert Sum4(SmallSigma1(0x83d65655), 0x36363636, SmallSigma0(0x3d3d3d3d), 0x3d3d3d3d) == 0x87c68a09;
    assert Sum4(SmallSigma1(0x87c68a09), 0x36363636, SmallSigma0(0x36363636), 0x3d3d3d3d) == 0xeefe9d53;
    assert Sum4(SmallSigma1(0x87c68a09), 0x36363636, SmallSigma0(0x36363636), 0x36363636) == 0xe7f7964c;
    assert Sum4(SmallSigma1(0xeefe9d53), 0x36363636, SmallSigma0(0x36363636), 0x36363636) == 0xf0cbc89a;
    assert Sum4(SmallSigma1(0xe7f7964c), 0x83d65655, SmallSigma0(0x36363636), 0x36363636) == 0xdb09c692;
    assert Sum4(SmallSigma1(0xf0cbc89a), 0x83d65655, SmallSigma0(0x36363636), 0x36363636) == 0x3e95c840;
    assert Sum4(SmallSigma1(0xdb09c692), 0x87c68a09, SmallSigma0(0x36363636), 0x36363636) == 0x80d1dbfa;
    assert Sum4(SmallSigma1(0x3e95c840), 0x87c68a09, SmallSigma0(0x36363636), 0x36363636) == 0x024ba550;
    assert Sum4(SmallSigma1(0x80d1dbfa), 0xeefe9d53, SmallSigma0(0x36363636), 0x36363636) == 0xe2fe1eb4;
    assert Sum4(SmallSigma1(0x024ba550), 0xe7f7964c, SmallSigma0(0x36363636), 0x36363636) == 0xab57872e;
    assert Sum4(SmallSigma1(0xe2fe1eb4), 0xf0cbc89a, SmallSigma0(0x36363636), 0x36363636) == 0xdadd789e;
    assert Sum4(SmallSigma1(0xab57872e), 0xdb09c692, SmallSigma0(0x36363636), 0x36363636) == 0x2bbf790f;
    assert Sum4(SmallSigma1(0xdadd789e), 0x3e95c840, SmallSigma0(0x83d65655), 0x36363636) == 0xb71e0674;
    hide Sum4, SmallSigma0, SmallSigma1;
  }

  lemma INNER0_Next1()
    ensures Next(INNER0_W1, INNER0_W2)
  {
    assert Sum4(SmallSigma1(0x2bbf790f), 0x80d1dbfa, SmallSigma0(0x83d65655), 0x83d65655) == 0x873cd858;
    assert Sum4(SmallSigma1(0xb71e0674), 0x024ba550, SmallSigma0(0x87c68a09), 0x83d65655) == 0xeb704436;
    assert Sum4(SmallSigma1(0x873cd858), 0xe2fe1eb4, SmallSigma0(0x87c68a09), 0x87c68a09) == 0x034082b0;
    assert Sum4(SmallSigma1(0xeb704436), 0xab57872e, SmallSigma0(0xeefe9d53), 0x87c68a09) == 0x7b1c5b2d;
    assert Sum4(SmallSigma1(0x034082b0), 0xdadd789e, SmallSigma0(0xe7f7964c), 0xeefe9d53) == 0x7b8d0bf1;
    assert Sum4(SmallSigma1(0x7b1c5b2d), 0x2bbf790f, SmallSigma0(0xf0cbc89a), 0xe7f7964c) == 0x94833806;
    assert Sum4(SmallSigma1(0x7b8d0bf1), 0xb71e0674, SmallSigma0(0xdb09c692), 0xf0cbc89a) == 0x1bf5dea0;
    assert Sum4(SmallSigma1(0x94833806), 0x873cd858, SmallSigma0(0x3e95c840), 0xdb09c692) == 0x532cf446;
    assert Sum4(SmallSigma1(0x1bf5dea0), 0xeb704436, SmallSigma0(0x80d1dbfa), 0x3e95c840) == 0x126e3965;
    assert Sum4(SmallSigma1(0x532cf446), 0x034082b0, SmallSigma0(0x024ba550), 0x80d1dbfa) == 0xb1eb6aea;
    assert Sum4(SmallSigma1(0x126e3965), 0x7b1c5b2d, SmallSigma0(0xe2fe1eb4), 0x024ba550) == 0x4b39b8c5;
    assert Sum4(SmallSigma1(0xb1eb6aea), 0x7b8d0bf1, SmallSigma0(0xab57872e), 0xe2fe1eb4) == 0xe08793f5;
    assert Sum4(SmallSigma1(0x4b39b8c5), 0x94833806, SmallSigma0(0xdadd789e), 0xab57872e) == 0xa40d251e;
    assert Sum4(SmallSigma1(0xe08793f5), 0x1bf5dea0, SmallSigma0(0x2bbf790f), 0xdadd789e) == 0xf7f32031;
    assert Sum4(SmallSigma1(0xa40d251e), 0x532cf446, SmallSigma0(0xb71e0674), 0x2bbf790f) == 0x3302c428;
    assert Sum4(SmallSigma1(0xf7f32031), 0x126e3965, SmallSigma0(0x873cd858), 0xb71e0674) == 0x55af3d1c;
    hide Sum4, SmallSigma0, SmallSigma1;
  }

  lemma INNER0_Next2()
    ensures Next(INNER0_W2, INNER0_W3)
  {
    assert Sum4(SmallSigma1(0x3302c428), 0xb1eb6aea, SmallSigma0(0xeb704436), 0x873cd858) == 0xd57b7564;
    assert Sum4(SmallSigma1(0x55af3d1c), 0x4b39b8c5, SmallSigma0(0x034082b0), 0xeb704436) == 0xf0a55a2b;
    assert Sum4(SmallSigma1(0xd57b7564), 0xe08793f5, SmallSigma0(0x7b1c5b2d), 0x034082b0) == 0xfb52b288;
    assert Sum4(SmallSigma1(0xf0a55a2b), 0xa40d251e, SmallSigma0(0x7b8d0bf1), 0x7b1c5b2d) == 0xd51114e5;
    assert Sum4(SmallSigma1(0xfb52b288), 0xf7f32031, SmallSigma0(0x94833806), 0x7b8d0bf1) == 0x5464a6e1;
    assert Sum4(SmallSigma1(0xd51114e5), 0x3302c428, SmallSigma0(0x1bf5dea0), 0x94833806) == 0xa5426731;
    assert Sum4(SmallSigma1(0x5464a6e1), 0x55af3d1c, SmallSigma0(0x532cf446), 0x1bf5dea0) == 0xf53108fe;
    assert Sum4(SmallSigma1(0xa5426731), 0xd57b7564, SmallSigma0(0x126e3965), 0x532cf446) == 0xee307fff;
    assert Sum4(SmallSigma1(0xf53108fe), 0xf0a55a2b, SmallSigma0(0xb1eb6aea), 0x126e3965) == 0xc25593fe;
    assert Sum4(SmallSigma1(0xee307fff), 0xfb52b288, SmallSigma0(0x4b39b8c5), 0xb1eb6aea) == 0xcb39bada;
    assert Sum4(SmallSigma1(0xc25593fe), 0xd51114e5, SmallSigma0(0xe08793f5), 0x4b39b8c5) == 0xaf277f26;
    assert Sum4(SmallSigma1(0xcb39bada), 0x5464a6e1, SmallSigma0(0xa40d251e), 0xe08793f5) == 0x7f7f4555;
    assert Sum4(SmallSigma1(0xaf277f26), 0xa5426731, SmallSigma0(0xf7f32031), 0xa40d251e) == 0x4ec9d7b1;
    assert Sum4(SmallSigma1(0x7f7f4555), 0xf53108fe, SmallSigma0(0x3302c428), 0xf7f32031) == 0x1e504a7d;
    assert Sum4(SmallSigma1(0x4ec9d7b1), 0xee307fff, SmallSigma0(0x55af3d1c), 0x3302c428) == 0xefca2da1;
    assert Sum4(SmallSigma1(0x1e504a7d), 0xc25593fe, SmallSigma0(0xd57b7564), 0x55af3d1c) == 0x52d83722;
    hide Sum4, SmallSigma0, SmallSigma1;
  }

  lemma INNER0_Run0()
    ensures RunLow(INNER0_V0, KW0, INNER0_W0) == INNER0_V1
  {
    assert Gives(Vars(0x6a09e667, 0xbb67ae85, 0x3c6ef372, 0xa54ff53a, 0x510e527f, 0x9b05688c, 0x1f83d9ab, 0x5be0cd19),
                 0x428a2f98, 0x3d3d3d3d, 0x3945c58a, 0xd6051fdf);
    assert Gives(Vars(0x3945c58a, 0x6a09e667, 0xbb67ae85, 0x3c6ef372, 0xd6051fdf, 0x510e527f, 0x9b05688c, 0x1f83d9ab),
                 0x71374491, 0x3d3d3d3d, 0x9d86833f, 0xe998fc81);
    assert Gives(Vars(0x9d86833f, 0x3945c58a, 0x6a09e667, 0xbb67ae85, 0xe998fc81, 0xd6051fdf, 0x510e527f, 0x9b05688c),
                 0xb5c0fbcf, 0x3d3d3d3d, 0xd7864a6c, 0x75567f35);
    assert Gives(Vars(0xd7864a6c, 0x9d86833f, 0x3945c58a, 0x6a09e667, 0x75567f35, 0xe998fc81, 0xd6051fdf, 0x510e527f),
                 0xe9b5dba5, 0x3d3d3d3d, 0x108cb2da, 0x5d61381c);
    assert Gives(Vars(0x108cb2da, 0xd7864a6c, 0x9d86833f, 0x3945c58a, 0x5d61381c, 0x75567f35, 0xe998fc81, 0xd6051fdf),
                 0x3956c25b, 0x3d3d3d3d, 0xba938604, 0x3e1a087f);
    assert Gives(Vars(0xba938604, 0x108cb2da, 0xd7864a6c, 0x9d86833f, 0x3e1a087f, 0x5d61381c, 0x75567f35, 0xe998fc81),
                 0x59f111f1, 0x36363636, 0xb8400306, 0x72a6dc02);
    assert Gives(Vars(0xb8400306, 0xba938604, 0x108cb2da, 0xd7864a6c, 0x72a6dc02, 0x3e1a087f, 0x5d61381c, 0x75567f35),
                 0x923f82a4, 0x36363636, 0xc6a488e5, 0x2f80792b);
    assert Gives(Vars(0xc6a488e5, 0xb8400306, 0xba938604, 0x108cb2da, 0x2f80792b, 0x72a6dc02, 0x3e1a087f, 0x5d61381c),
                 0xab1c5ed5, 0x36363636, 0x1a5a8c04, 0xcbc23cd3);
    hide Round;
  }

  lemma INNER0_Run1()
    ensures RunHigh(INNER0_V1, KW0, INNER0_W0) == INNER0_V2
  {
    assert Gives(Vars(0x1a5a8c04, 0xc6a488e5, 0xb8400306, 0xba938604, 0xcbc23cd3, 0x2f80792b, 0x72a6dc02, 0x3e1a087f),
                 0xd807aa98, 0x36363636, 0x630be461, 0x76d880a5);
    assert Gives(Vars(0x630be461, 0x1a5a8c04, 0xc6a488e5, 0xb8400306, 0x76d880a5, 0xcbc23cd3, 0x2f80792b, 0x72a6dc02),
                 0x12835b01, 0x36363636, 0x8ab9c39d, 0xac96d573);
    assert Gives(Vars(0x8ab9c39d, 0x630be461, 0x1a5a8c04, 0xc6a488e5, 0xac96d573, 0x76d880a5, 0xcbc23cd3, 0x2f80792b),
                 0x243185be, 0x36363636, 0xc0ce6521, 0xe40ad6fe);
    assert Gives(Vars(0xc0ce6521, 0x8ab9c39d, 0x630be461, 0x1a5a8c04, 0xe40ad6fe, 0xac96d573, 0x76d880a5, 0xcbc23cd3),
                 0x550c7dc3, 0x36363636, 0x5234980b, 0x495a26b6);
    assert Gives(Vars(0x5234980b, 0xc0ce6521, 0x8ab9c39d, 0x630be461, 0x495a26b6, 0xe40ad6fe, 0xac96d573, 0x76d880a5),
                 0x72be5d74, 0x36363636, 0x30cf6137, 0x0a66e9a1);
    assert Gives(Vars(0x30cf6137, 0x5234980b, 0xc0ce6521, 0x8ab9c39d, 0x0a66e9a1, 0x495a26b6, 0xe40ad6fe, 0xac96d573),
                 0x80deb1fe, 0x36363636, 0x1c4ee0bb, 0x5e2bc040);
    assert Gives(Vars(0x1c4ee0bb, 0x30cf6137, 0x5234980b, 0xc0ce6521, 0x5e2bc040, 0x0a66e9a1, 0x495a26b6, 0xe40ad6fe),
                 0x9bdc06a7, 0x36363636, 0xe7bbdb4a, 0x9ef1aa08);
    assert Gives(Vars(0xe7bbdb4a, 0x1c4ee0bb, 0x30cf6137, 0x5234980b, 0x9ef1aa08, 0x5e2bc040, 0x0a66e9a1, 0x495a26b6),
                 0xc19bf174, 0x36363636, 0x3cb5eea0, 0xcd45c4de);
    hide Round;
  }

  lemma INNER0_Run2()
    ensures RunLow(INNER0_V2, KW1, INNER0_W1) == INNER0_V3
  {
    assert Gives(Vars(0x3cb5eea0, 0xe7bbdb4a, 0x1c4ee0bb, 0x30cf6137, 0xcd45c4de, 0x9ef1aa08, 0x5e2bc040, 0x0a66e9a1),
                 0xe49b69c1, 0x83d65655, 0x3da9042b, 0x84225bc3);
    assert Gives(Vars(0x3da9042b, 0x3cb5eea0, 0xe7bbdb4a, 0x1c4ee0bb, 0x84225bc3, 0xcd45c4de, 0x9ef1aa08, 0x5e2bc040),
                 0xefbe4786, 0x83d65655, 0x5fbcfaa9, 0xf42f0c86);
    assert Gives(Vars(0x5fbcfaa9, 0x3da9042b, 0x3cb5eea0, 0xe7bbdb4a, 0xf42f0c86, 0x84225bc3, 0xcd45c4de, 0x9ef1aa08),
                 0x0fc19dc6, 0x87c68a09, 0x0f726a36, 0x4820f0a4);
    assert Gives(Vars(0x0f726a36, 0x5fbcfaa9, 0x3da9042b, 0x3cb5eea0, 0x4820f0a4, 0xf42f0c86, 0x84225bc3, 0xcd45c4de),
                 0x240ca1cc, 0x87c68a09, 0x0e8975c0, 0x0fc2c112);
    assert Gives(Vars(0x0e8975c0, 0x0f726a36, 0x5fbcfaa9, 0x3da9042b, 0x0fc2c112, 0x4820f0a4, 0xf42f0c86, 0x84225bc3),
                 0x2de92c6f, 0xeefe9d53, 0xbc841005, 0x61ff708f);
    assert Gives(Vars(0xbc841005, 0x0e8975c0, 0x0f726a36, 0x5fbcfaa9, 0x61ff708f, 0x0fc2c112, 0x4820f0a4, 0xf42f0c86),
                 0x4a7484aa, 0xe7f7964c, 0x11fed411, 0x63ee67e3);
    assert Gives(Vars(0x11fed411, 0xbc841005, 0x0e8975c0, 0x0f726a36, 0x63ee67e3, 0x61ff708f, 0x0fc2c112, 0x4820f0a4),
                 0x5cb0a9dc, 0xf0cbc89a, 0xc6904c45, 0x99cee3c5);
    assert Gives(Vars(0xc6904c45, 0x11fed411, 0xbc841005, 0x0e8975c0, 0x99cee3c5, 0x63ee67e3, 0x61ff708f, 0x0fc2c112),
                 0x76f988da, 0xdb09c692, 0x34bae976, 0x5bf4daa8);
    hide Round;
  }

  lemma INNER0_Run3()
    ensures RunHigh(INNER0_V3, KW1, INNER0_W1) == INNER0_V4
  {
    assert Gives(Vars(0x34bae976, 0xc6904c45, 0x11fed411, 0xbc841005, 0x5bf4daa8, 0x99cee3c5, 0x63ee67e3, 0x61ff708f),
                 0x983e5152, 0x3e95c840, 0xc2a1ff6d, 0x3d307bc5);
    assert Gives(Vars(0xc2a1ff6d, 0x34bae976, 0xc6904c45, 0x11fed411, 0x3d307bc5, 0x5bf4daa8, 0x99cee3c5, 0x63ee67e3),
                 0xa831c66d, 0x80d1dbfa, 0xee4c358b, 0x2d5e3e59);
    assert Gives(Vars(0xee4c358b, 0xc2a1ff6d, 0x34bae976, 0xc6904c45, 0x2d5e3e59, 0x3d307bc5, 0x5bf4daa8, 0x99cee3c5),
                 0xb00327c8, 0x024ba550, 0x1a21f98f, 0x92eef7ab);
    assert Gives(Vars(0x1a21f98f, 0xee4c358b, 0xc2a1ff6d, 0x34bae976, 0x92eef7ab, 0x2d5e3e59, 0x3d307bc5, 0x5bf4daa8),
                 0xbf597fc7, 0xe2fe1eb4, 0xaf257bcc, 0x8ca7d4af);
    assert Gives(Vars(0xaf257bcc, 0x1a21f98f, 0xee4c358b, 0xc2a1ff6d, 0x8ca7d4af, 0x92eef7ab, 0x2d5e3e59, 0x3d307bc5),
                 0xc6e00bf3, 0xab57872e, 0xd7f8f942, 0x8c3269bc);
    assert Gives(Vars(0xd7f8f942, 0xaf257bcc, 0x1a21f98f, 0xee4c358b, 0x8c3269bc, 0x8ca7d4af, 0x92eef7ab, 0x2d5e3e59),
                 0xd5a79147, 0xdadd789e, 0x94973530, 0x47b3e625);
    assert Gives(Vars(0x94973530, 0xd7f8f942, 0xaf257bcc, 0x1a21f98f, 0x47b3e625, 0x8c3269bc, 0x8ca7d4af, 0x92eef7ab),
                 0x06ca6351, 0x2bbf790f, 0x421f94e7, 0xf416698f);
    assert Gives(Vars(0x421f94e7, 0x94973530, 0xd7f8f942, 0xaf257bcc, 0xf416698f, 0x47b3e625, 0x8c3269bc, 0x8ca7d4af),
                 0x14292967, 0xb71e0674, 0x89c99f7f, 0x5860fd1c);
    hide Round;
  }

  lemma INNER0_Run4()
    ensures RunLow(INNER0_V4, KW2, INNER0_W2) == INNER0_V5
  {
    assert Gives(Vars(0x89c99f7f, 0x421f94e7, 0x94973530, 0xd7f8f942, 0x5860fd1c, 0xf416698f, 0x47b3e625, 0x8c3269bc),
                 0x27b70a85, 0x873cd858, 0x35e126b8, 0x4d46b2cf);
    assert Gives(Vars(0x35e126b8, 0x89c99f7f, 0x421f94e7, 0x94973530, 0x4d46b2cf, 0x5860fd1c, 0xf416698f, 0x47b3e625),
                 0x2e1b2138, 0xeb704436, 0xdf02b7c9, 0xb5ad4f8a);
    assert Gives(Vars(0xdf02b7c9, 0x35e126b8, 0x89c99f7f, 0x421f94e7, 0xb5ad4f8a, 0x4d46b2cf, 0x5860fd1c, 0xf416698f),
                 0x4d2c6dfc, 0x034082b0, 0x0002fd3a, 0xe10f678d);
    assert Gives(Vars(0x0002fd3a, 0xdf02b7c9, 0x35e126b8, 0x89c99f7f, 0xe10f678d, 0xb5ad4f8a, 0x4d46b2cf, 0x5860fd1c),
                 0x53380d13, 0x7b1c5b2d, 0x8cb626b9, 0x9f58b727);
    assert Gives(Vars(0x8cb626b9, 0x0002fd3a, 0xdf02b7c9, 0x35e126b8, 0x9f58b727, 0xe10f678d, 0xb5ad4f8a, 0x4d46b2cf),
                 0x650a7354, 0x7b8d0bf1, 0xc0de7d8c, 0xdc41e25e);
    assert Gives(Vars(0xc0de7d8c, 0x8cb626b9, 0x0002fd3a, 0xdf02b7c9, 0xdc41e25e, 0x9f58b727, 0xe10f678d, 0xb5ad4f8a),
                 0x766a0abb, 0x94833806, 0xb48302f8, 0x6d479276);
    assert Gives(Vars(0xb48302f8, 0xc0de7d8c, 0x8cb626b9, 0x0002fd3a, 0x6d479276, 0xdc41e25e, 0x9f58b727, 0xe10f678d),
                 0x81c2c92e, 0x1bf5dea0, 0x4d57f16b, 0x91d64179);
    assert Gives(Vars(0x4d57f16b, 0xb48302f8, 0xc0de7d8c, 0x8cb626b9, 0x91d64179, 0x6d479276, 0xdc41e25e, 0x9f58b727),
                 0x92722c85, 0x532cf446, 0xc1370725, 0x814b8026);
    hide Round;
  }

  lemma INNER0_Run5()
    ensures RunHigh(INNER0_V5, KW2, INNER0_W2) == INNER0_V6
  {
    assert Gives(Vars(0xc1370725, 0x4d57f16b, 0xb48302f8, 0xc0de7d8c, 0x814b8026, 0x91d64179, 0x6d479276, 0xdc41e25e),
                 0xa2bfe8a1, 0x126e3965, 0x14618de2, 0x7aa9a890);
    assert Gives(Vars(0x14618de2, 0xc1370725, 0x4d57f16b, 0xb48302f8, 0x7aa9a890, 0x814b8026, 0x91d64179, 0x6d479276),
                 0xa81a664b, 0xb1eb6aea, 0x0195ae46, 0x0461e3b6);
    assert Gives(Vars(0x0195ae46, 0x14618de2, 0xc1370725, 0x4d57f16b, 0x0461e3b6, 0x7aa9a890, 0x814b8026, 0x91d64179),
                 0xc24b8b70, 0x4b39b8c5, 0x64ca058e, 0x0bffe859);
    assert Gives(Vars(0x64ca058e, 0x0195ae46, 0x14618de2, 0xc1370725, 0x0bffe859, 0x0461e3b6, 0x7aa9a890, 0x814b8026),
                 0xc76c51a3, 0xe08793f5, 0xccb51f8d, 0xebd2fa4c);
    assert Gives(Vars(0xccb51f8d, 0x64ca058e, 0x0195ae46, 0x14618de2, 0xebd2fa4c, 0x0bffe859, 0x0461e3b6, 0x7aa9a890),
                 0xd192e819, 0xa40d251e, 0x335edc8b, 0xa7ee4566);
    assert Gives(Vars(0x335edc8b, 0xccb51f8d, 0x64ca058e, 0x0195ae46, 0xa7ee4566, 0xebd2fa4c, 0x0bffe859, 0x0461e3b6),
                 0xd6990624, 0xf7f32031, 0xf906089e, 0x41c1983c);
    assert Gives(Vars(0xf906089e, 0x335edc8b, 0xccb51f8d, 0x64ca058e, 0x41c1983c, 0xa7ee4566, 0xebd2fa4c, 0x0bffe859),
                 0xf40e3585, 0x3302c428, 0xd0d0b35f, 0x59f06a6b);
    assert Gives(Vars(0xd0d0b35f, 0xf906089e, 0x335edc8b, 0xccb51f8d, 0x59f06a6b, 0x41c1983c, 0xa7ee4566, 0xebd2fa4c),
                 0x106aa070, 0x55af3d1c, 0x6f531cbc, 0x1ea9ce99);
    hide Round;
  }

  lemma INNER0_Run6()
    ensures RunLow(INNER0_V6, KW3, INNER0_W3) == INNER0_V7
  {
    assert Gives(Vars(0x6f531cbc, 0xd0d0b35f, 0xf906089e, 0x335edc8b, 0x1ea9ce99, 0x59f06a6b, 0x41c1983c, 0xa7ee4566),
                 0x19a4c116, 0xd57b7564, 0x80447941, 0x080bf124);
    assert Gives(Vars(0x80447941, 0x6f531cbc, 0xd0d0b35f, 0xf906089e, 0x080bf124, 0x1ea9ce99, 0x59f06a6b, 0x41c1983c),
                 0x1e376c08, 0xf0a55a2b, 0xd83a3947, 0x54f7ee16);
    assert Gives(Vars(0xd83a3947, 0x80447941, 0x6f531cbc, 0xd0d0b35f, 0x54f7ee16, 0x080bf124, 0x1ea9ce99, 0x59f06a6b),
                 0x2748774c, 0xfb52b288, 0x042d4960, 0x37d6729a);
    assert Gives(Vars(0x042d4960, 0xd83a3947, 0x80447941, 0x6f531cbc, 0x37d6729a, 0x54f7ee16, 0x080bf124, 0x1ea9ce99),
                 0x34b0bcb5, 0xd51114e5, 0x9547ddeb, 0x853f8e44);
    assert Gives(Vars(0x9547ddeb, 0x042d4960, 0xd83a3947, 0x80447941, 0x853f8e44, 0x37d6729a, 0x54f7ee16, 0x080bf124),
                 0x391c0cb3, 0x5464a6e1, 0xda50cec8, 0xb0eafb95);
    assert Gives(Vars(0xda50cec8, 0x9547ddeb, 0x042d4960, 0xd83a3947, 0xb0eafb95, 0x853f8e44, 0x37d6729a, 0x54f7ee16),
                 0x4ed8aa4a, 0xa5426731, 0xb989964d, 0xf9943f4f);
    assert Gives(Vars(0xb989964d, 0xda50cec8, 0x9547ddeb, 0x042d4960, 0xf9943f4f, 0xb0eafb95, 0x853f8e44, 0x37d6729a),
                 0x5b9cca4f, 0xf53108fe, 0xecef4474, 0x5d840fd2);
    assert Gives(Vars(0xecef4474, 0xb989964d, 0xda50cec8, 0x9547ddeb, 0x5d840fd2, 0xf9943f4f, 0xb0eafb95, 0x853f8e44),
                 0x682e6ff3, 0xee307fff, 0xe51ef32d, 0xdc0fa4f8);
    hide Round;
  }

  lemma INNER0_Run7()
    ensures RunHigh(INNER0_V7, KW3, INNER0_W3) == INNER0_V8
  {
    assert Gives(Vars(0xe51ef32d, 0xecef4474, 0xb989964d, 0xda50cec8, 0xdc0fa4f8, 0x5d840fd2, 0xf9943f4f, 0xb0eafb95),
                 0x748f82ee, 0xc25593fe, 0x6a91ef76, 0xbb6ec429);
    assert Gives(Vars(0x6a91ef76, 0xe51ef32d, 0xecef4474, 0xb989964d, 0xbb6ec429, 0xdc0fa4f8, 0x5d840fd2, 0xf9943f4f),
                 0x78a5636f, 0xcb39bada, 0x42058e13, 0x684445f4);
    assert Gives(Vars(0x42058e13, 0x6a91ef76, 0xe51ef32d, 0xecef4474, 0x684445f4, 0xbb6ec429, 0xdc0fa4f8, 0x5d840fd2),
                 0x84c87814, 0xaf277f26, 0xb30bfcb6, 0x87c21353);
    assert Gives(Vars(0xb30bfcb6, 0x42058e13, 0x6a91ef76, 0xe51ef32d, 0x87c21353, 0x684445f4, 0xbb6ec429, 0xdc0fa4f8),
                 0x8cc70208, 0x7f7f4555, 0xaeb0b78d, 0xcb47fec6);
    assert Gives(Vars(0xaeb0b78d, 0xb30bfcb6, 0x42058e13, 0x6a91ef76, 0xcb47fec6, 0x87c21353, 0x684445f4, 0xbb6ec429),
                 0x90befffa, 0x4ec9d7b1, 0x5565f11a, 0x08d6b31d);
    assert Gives(Vars(0x5565f11a, 0xaeb0b78d, 0xb30bfcb6, 0x42058e13, 0x08d6b31d, 0xcb47fec6, 0x87c21353, 0x684445f4),
                 0xa4506ceb, 0x1e504a7d, 0x7879321a, 0x790d0c53);
    assert Gives(Vars(0x7879321a, 0x5565f11a, 0xaeb0b78d, 0xb30bfcb6, 0x790d0c53, 0x08d6b31d, 0xcb47fec6, 0x87c21353),
                 0xbef9a3f7, 0xefca2da1, 0x6851ad74, 0xb4e61062);
    assert Gives(Vars(0x6851ad74, 0x7879321a, 0x5565f11a, 0xaeb0b78d, 0xb4e61062, 0x790d0c53, 0x08d6b31d, 0xcb47fec6),
                 0xc67178f2, 0x52d83722, 0xc1a8319d, 0xc0e43f9f);
    hide Round;
  }

  const INNER0_OUT: seq<bv32> :=
    [0x2bb21804, 0x23b95bf9, 0xb4e8258c, 0xfab5e654, 0x11f2921e, 0x4feb78ee, 0x9890e5fe, 0x64b78036]

  lemma INNER0_Compress(b: seq<byte>)
    requires |b| == 64 && Window(b, 0, INNER0_W0)
    ensures Compress(IV, b) == INNER0_OUT
  {
    INNER0_Next0();
    INNER0_Next1();
    INNER0_Next2();
    INNER0_Run0();
    INNER0_Run1();
    INNER0_Run2();
    INNER0_Run3();
    INNER0_Run4();
    INNER0_Run5();
    INNER0_Run6();
    INNER0_Run7();
    hide Next, RunLow, RunHigh, Window;
    assert VarsOf(IV) == INNER0_V0;
    CompressIs(IV, b, INNER0_W0, INNER0_W1, INNER0_W2, INNER0_W3);
    INNER0_Added();
  }

  lemma INNER0_Added()
    ensures Added(IV, INNER0_V8) == INNER0_OUT
  {
    var r := Added(IV, INNER0_V8);
    assert r[0] == INNER0_OUT[0] && r[1] == INNER0_OUT[1] && r[2] == INNER0_OUT[2] && r[3] == INNER0_OUT[3];
    assert r[4] == INNER0_OUT[4] && r[5] == INNER0_OUT[5] && r[6] == INNER0_OUT[6] && r[7] == INNER0_OUT[7];
  }

  lemma INNER0_Block()
    ensures Compress(IV, Masked(BlockKey(KEY), IPAD)) == INNER0_OUT
  {
    hide Window, WordAt, Compress, BlockKey, Xor;
    PadBytes();
    var b := Masked(BlockKey(KEY), IPAD);
    PadBlock(b, IPAD, 0x3d, 0x36);
    INNER0_Words(b);
    INNER0_Compress(b);
  }

  lemma INNER0_Words(b: seq<byte>)
    requires |b| == 64 && (forall i :: 0 <= i < 20 ==> b[i] == 0x3d) && forall i :: 20 <= i < 64 ==> b[i] == 0x36
    ensures Window(b, 0, INNER0_W0)
  {
    hide Window, WordAt;
    INNER0_Low(b);
    INNER0_High(b);
    hide WordOf;
    WindowOf(b, INNER0_W0);
  }

  lemma INNER0_Low(b: seq<byte>)
    requires |b| == 64 && forall i :: 0 <= i < 20 ==> b[i] == 0x3d
    ensures forall k :: 0 <= k < 5 ==> WordAt(b, k) == 0x3d3d3d3d
  {
    hide WordAt;
    EvenWords(b, 0, 5, 0x3d, 0x3d3d3d3d);
  }

  lemma INNER0_High(b: seq<byte>)
    requires |b| == 64 && forall i :: 20 <= i < 64 ==> b[i] == 0x36
    ensures forall k :: 5 <= k < 16 ==> WordAt(b, k) == 0x36363636
  {
    hide WordAt;
    EvenWords(b, 5, 16, 0x36, 0x36363636);
  }

  const INNER1_W0 := Sixteen(
    0x48692054, 0x68657265, 0x80000000, 0, 0, 0, 0, 0, 0, 0, 0, 0, 0, 0, 0, 0x00000240)
  const INNER1_W1 := Sixteen(
    0xe3ae5f05, 0x7acd9265, 0x645aa635, 0x7b60a15b, 0x07c5080f, 0x44980af4, 0x25079498, 0xe7e3ebe2, 0xb3a3ea2b,
    0xed0f7e2c, 0x03dce8ba, 0x58adb108, 0x2de2c1a3, 0x93baa0c7, 0xa162782b, 0x3877b122)
  const INNER1_W2 := Sixteen(
    0xe52c510f, 0x7d347a94, 0xf173a815, 0xb8404a00, 0x1f5ae3c0, 0xe435d354, 0xaeea240b, 0xdca3f752, 0x2378475a,
    0xb249e7aa, 0x5f52b9e4, 0x3aa488ab, 0x5353cb9b, 0xf5577ba3, 0xc9e71e09, 0xc5b4f623)
  const INNER1_W3 := Sixteen(
    0x3e67d5ab, 0xa23619d7, 0x4180398e, 0x16b3acdf, 0xf234d122, 0xdd913234, 0xab2252c2, 0x7c76ceee, 0x63892d3a,
    0x1fadf2d9, 0x9c341d6e, 0x4233ab5c, 0x45cb4b40, 0x0e7c539e, 0x75ec4bca, 0x71d877c9)
  const INNER1_V0 :=
    Vars(0x2bb21804, 0x23b95bf9, 0xb4e8258c, 0xfab5e654, 0x11f2921e, 0x4feb78ee, 0x9890e5fe, 0x64b78036)
  const INNER1_V1 :=
    Vars(0xce3494b4, 0x85c6a7f0, 0xd66e4864, 0xeba36673, 0x54ab0ff0, 0x3beff05c, 0x5c076c2b, 0x4936b04e)
  const INNER1_V2 :=
    Vars(0xb8ccba9a, 0xd06247ca, 0x30dd05d1, 0x75f5ba65, 0xcc5b50cf, 0xbdcd8bb1, 0x324501c3, 0x85af8ec4)
  const INNER1_V3 :=
    Vars(0xece3691c, 0xba3bb3fe, 0x6ae0e6ed, 0xdd265904, 0x9b8f2382, 0xd9187745, 0x87a4ec80, 0x8dc77dec)
  const INNER1_V4 :=
    Vars(0x26a1971a, 0x40fa9b72, 0x94aceed1, 0xd4ad0e4c, 0xe1bf8d0f, 0x6ff1d8be, 0x9a61b911, 0x4db711e5)
  const INNER1_V5 :=
    Vars(0xc8e29587, 0xa5b00ab4, 0x76d1ec55, 0x34157628, 0xb3d345df, 0xcdfabbfc, 0xf8d6d122, 0x1d6eb0f8)
  const INNER1_V6 :=
    Vars(0x182dee89, 0xf1eab7ef, 0x011929a4, 0x17abe18a, 0x9c68e53c, 0x2bda9036, 0xacb0d543, 0xfa181fba)
  const INNER1_V7 :=
    Vars(0x04e3df1d, 0x628192be, 0x2f56f280, 0x8b7ca9b9, 0x99dff112, 0xfa7bfbd7, 0xada69acc, 0xa25a12ea)
  const INNER1_V8 :=
    Vars(0x66f93596, 0xfb820559, 0x07c1b812, 0x6ef95da0, 0xbca75211, 0x84f7970b, 0xda339a27, 0x55424fb9)

  lemma INNER1_SumsLow()
    ensures Sum4(SmallSigma1(0), 0, SmallSigma0(0x68657265), 0x48692054) == 0xe3ae5f05
    ensures Sum4(SmallSigma1(0x00000240), 0, SmallSigma0(0x80000000), 0x68657265) == 0x7acd9265
    ensures Sum4(SmallSigma1(0xe3ae5f05), 0, SmallSigma0(0), 0x80000000) == 0x645aa635
    ensures Sum4(SmallSigma1(0x7acd9265), 0, SmallSigma0(0), 0) == 0x7b60a15b
    ensures Sum4(SmallSigma1(0x645aa635), 0, SmallSigma0(0), 0) == 0x07c5080f
    ensures Sum4(SmallSigma1(0x7b60a15b), 0, SmallSigma0(0), 0) == 0x44980af4
    ensures Sum4(SmallSigma1(0x07c5080f), 0x00000240, SmallSigma0(0), 0) == 0x25079498
    ensures Sum4(SmallSigma1(0x44980af4), 0xe3ae5f05, SmallSigma0(0), 0) == 0xe7e3ebe2
  {
  }

  lemma INNER1_SumsHigh()
    ensures Sum4(SmallSigma1(0x25079498), 0x7acd9265, SmallSigma0(0), 0) == 0xb3a3ea2b
    ensures Sum4(SmallSigma1(0xe7e3ebe2), 0x645aa635, SmallSigma0(0), 0) == 0xed0f7e2c
    ensures Sum4(SmallSigma1(0xb3a3ea2b), 0x7b60a15b, SmallSigma0(0), 0) == 0x03dce8ba
    ensures Sum4(SmallSigma1(0xed0f7e2c), 0x07c5080f, SmallSigma0(0), 0) == 0x58adb108
    ensures Sum4(SmallSigma1(0x03dce8ba), 0x44980af4, SmallSigma0(0), 0) == 0x2de2c1a3
    ensures Sum4(SmallSigma1(0x58adb108), 0x25079498, SmallSigma0(0), 0) == 0x93baa0c7
    ensures Sum4(SmallSigma1(0x2de2c1a3), 0xe7e3ebe2, SmallSigma0(0x00000240), 0) == 0xa162782b
    ensures Sum4(SmallSigma1(0x93baa0c7), 0xb3a3ea2b, SmallSigma0(0xe3ae5f05), 0x00000240) == 0x3877b122
  {
  }

  lemma INNER1_First()
    ensures Next(
      Sixteen(
        0x48692054, 0x68657265, 0x80000000, 0, 0, 0, 0, 0, 0, 0, 0, 0, 0, 0, 0, 0x00000240),
      Sixteen(
        0xe3ae5f05, 0x7acd9265, 0x645aa635, 0x7b60a15b, 0x07c5080f, 0x44980af4, 0x25079498, 0xe7e3ebe2, 0xb3a3ea2b,
        0xed0f7e2c, 0x03dce8ba, 0x58adb108, 0x2de2c1a3, 0x93baa0c7, 0xa162782b, 0x3877b122))
  {
    hide Sum4, SmallSigma0, SmallSigma1;
    INNER1_SumsLow();
    INNER1_SumsHigh();
    NextWords(
        0x48692054, 0x68657265, 0x80000000, 0, 0, 0, 0, 0, 0, 0, 0, 0, 0, 0, 0, 0x00000240,
        0xe3ae5f05, 0x7acd9265, 0x645aa635, 0x7b60a15b, 0x07c5080f, 0x44980af4, 0x25079498, 0xe7e3ebe2, 0xb3a3ea2b,
        0xed0f7e2c, 0x03dce8ba, 0x58adb108, 0x2de2c1a3, 0x93baa0c7, 0xa162782b, 0x3877b122);
  }

  lemma INNER1_Next0()
    ensures Next(INNER1_W0, INNER1_W1)
  {
    hide Next, Sum4, SmallSigma0, SmallSigma1;
    INNER1_First();
  }

  lemma INNER1_Next1()
    ensures Next(INNER1_W1, INNER1_W2)
  {
    assert Sum4(SmallSigma1(0xa162782b), 0xed0f7e2c, SmallSigma0(0x7acd9265), 0xe3ae5f05) == 0xe52c510f;
    assert Sum4(SmallSigma1(0x3877b122), 0x03dce8ba, SmallSigma0(0x645aa635), 0x7acd9265) == 0x7d347a94;
    assert Sum4(SmallSigma1(0xe52c510f), 0x58adb108, SmallSigma0(0x7b60a15b), 0x645aa635) == 0xf173a815;
    assert Sum4(SmallSigma1(0x7d347a94), 0x2de2c1a3, SmallSigma0(0x07c5080f), 0x7b60a15b) == 0xb8404a00;
    assert Sum4(SmallSigma1(0xf173a815), 0x93baa0c7, SmallSigma0(0x44980af4), 0x07c5080f) == 0x1f5ae3c0;
    assert Sum4(SmallSigma1(0xb8404a00), 0xa162782b, SmallSigma0(0x25079498), 0x44980af4) == 0xe435d354;
    assert Sum4(SmallSigma1(0x1f5ae3c0), 0x3877b122, SmallSigma0(0xe7e3ebe2), 0x25079498) == 0xaeea240b;
    assert Sum4(SmallSigma1(0xe435d354), 0xe52c510f, SmallSigma0(0xb3a3ea2b), 0xe7e3ebe2) == 0xdca3f752;
    assert Sum4(SmallSigma1(0xaeea240b), 0x7d347a94, SmallSigma0(0xed0f7e2c), 0xb3a3ea2b) == 0x2378475a;
    assert Sum4(SmallSigma1(0xdca3f752), 0xf173a815, SmallSigma0(0x03dce8ba), 0xed0f7e2c) == 0xb249e7aa;
    assert Sum4(SmallSigma1(0x2378475a), 0xb8404a00, SmallSigma0(0x58adb108), 0x03dce8ba) == 0x5f52b9e4;
    assert Sum4(SmallSigma1(0xb249e7aa), 0x1f5ae3c0, SmallSigma0(0x2de2c1a3), 0x58adb108) == 0x3aa488ab;
    assert Sum4(SmallSigma1(0x5f52b9e4), 0xe435d354, SmallSigma0(0x93baa0c7), 0x2de2c1a3) == 0x5353cb9b;
    assert Sum4(SmallSigma1(0x3aa488ab), 0xaeea240b, SmallSigma0(0xa162782b), 0x93baa0c7) == 0xf5577ba3;
    assert Sum4(SmallSigma1(0x5353cb9b), 0xdca3f752, SmallSigma0(0x3877b122), 0xa162782b) == 0xc9e71e09;
    assert Sum4(SmallSigma1(0xf5577ba3), 0x2378475a, SmallSigma0(0xe52c510f), 0x3877b122) == 0xc5b4f623;
    hide Sum4, SmallSigma0, SmallSigma1;
  }

  lemma INNER1_Next2()
    ensures Next(INNER1_W2, INNER1_W3)
  {
    assert Sum4(SmallSigma1(0xc9e71e09), 0xb249e7aa, SmallSigma0(0x7d347a94), 0xe52c510f) == 0x3e67d5ab;
    assert Sum4(SmallSigma1(0xc5b4f623), 0x5f52b9e4, SmallSigma0(0xf173a815), 0x7d347a94) == 0xa23619d7;
    assert Sum4(SmallSigma1(0x3e67d5ab), 0x3aa488ab, SmallSigma0(0xb8404a00), 0xf173a815) == 0x4180398e;
    assert Sum4(SmallSigma1(0xa23619d7), 0x5353cb9b, SmallSigma0(0x1f5ae3c0), 0xb8404a00) == 0x16b3acdf;
    assert Sum4(SmallSigma1(0x4180398e), 0xf5577ba3, SmallSigma0(0xe435d354), 0x1f5ae3c0) == 0xf234d122;
    assert Sum4(SmallSigma1(0x16b3acdf), 0xc9e71e09, SmallSigma0(0xaeea240b), 0xe435d354) == 0xdd913234;
    assert Sum4(SmallSigma1(0xf234d122), 0xc5b4f623, SmallSigma0(0xdca3f752), 0xaeea240b) == 0xab2252c2;
    assert Sum4(SmallSigma1(0xdd913234), 0x3e67d5ab, SmallSigma0(0x2378475a), 0xdca3f752) == 0x7c76ceee;
    assert Sum4(SmallSigma1(0xab2252c2), 0xa23619d7, SmallSigma0(0xb249e7aa), 0x2378475a) == 0x63892d3a;
    assert Sum4(SmallSigma1(0x7c76ceee), 0x4180398e, SmallSigma0(0x5f52b9e4), 0xb249e7aa) == 0x1fadf2d9;
    assert Sum4(SmallSigma1(0x63892d3a), 0x16b3acdf, SmallSigma0(0x3aa488ab), 0x5f52b9e4) == 0x9c341d6e;
    assert Sum4(SmallSigma1(0x1fadf2d9), 0xf234d122, SmallSigma0(0x5353cb9b), 0x3aa488ab) == 0x4233ab5c;
    assert Sum4(SmallSigma1(0x9c341d6e), 0xdd913234, SmallSigma0(0xf5577ba3), 0x5353cb9b) == 0x45cb4b40;
    assert Sum4(SmallSigma1(0x4233ab5c), 0xab2252c2, SmallSigma0(0xc9e71e09), 0xf5577ba3) == 0x0e7c539e;
    assert Sum4(SmallSigma1(0x45cb4b40), 0x7c76ceee, SmallSigma0(0xc5b4f623), 0xc9e71e09) == 0x75ec4bca;
    assert Sum4(SmallSigma1(0x0e7c539e), 0x63892d3a, SmallSigma0(0x3e67d5ab), 0xc5b4f623) == 0x71d877c9;
    hide Sum4, SmallSigma0, SmallSigma1;
  }

  lemma INNER1_Run0()
    ensures RunLow(INNER1_V0, KW0, INNER1_W0) == INNER1_V1
  {
    assert Gives(Vars(0x2bb21804, 0x23b95bf9, 0xb4e8258c, 0xfab5e654, 0x11f2921e, 0x4feb78ee, 0x9890e5fe, 0x64b78036),
                 0x428a2f98, 0x48692054, 0x62c025ed, 0x37102776);
    assert Gives(Vars(0x62c025ed, 0x2bb21804, 0x23b95bf9, 0xb4e8258c, 0x37102776, 0x11f2921e, 0x4feb78ee, 0x9890e5fe),
                 0x71374491, 0x68657265, 0x252ed5f2, 0x3f1a36a0);
    assert Gives(Vars(0x252ed5f2, 0x62c025ed, 0x2bb21804, 0x23b95bf9, 0x3f1a36a0, 0x37102776, 0x11f2921e, 0x4feb78ee),
                 0xb5c0fbcf, 0x80000000, 0x58ad6100, 0xbb375277);
    assert Gives(Vars(0x58ad6100, 0x252ed5f2, 0x62c025ed, 0x2bb21804, 0xbb375277, 0x3f1a36a0, 0x37102776, 0x11f2921e),
                 0xe9b5dba5, 0, 0x52c7278a, 0x721f3d65);
    assert Gives(Vars(0x52c7278a, 0x58ad6100, 0x252ed5f2, 0x62c025ed, 0x721f3d65, 0xbb375277, 0x3f1a36a0, 0x37102776),
                 0x3956c25b, 0, 0xeba36673, 0x4936b04e);
    assert Gives(Vars(0xeba36673, 0x52c7278a, 0x58ad6100, 0x252ed5f2, 0x4936b04e, 0x721f3d65, 0xbb375277, 0x3f1a36a0),
                 0x59f111f1, 0, 0xd66e4864, 0x5c076c2b);
    assert Gives(Vars(0xd66e4864, 0xeba36673, 0x52c7278a, 0x58ad6100, 0x5c076c2b, 0x4936b04e, 0x721f3d65, 0xbb375277),
                 0x923f82a4, 0, 0x85c6a7f0, 0x3beff05c);
    assert Gives(Vars(0x85c6a7f0, 0xd66e4864, 0xeba36673, 0x52c7278a, 0x3beff05c, 0x5c076c2b, 0x4936b04e, 0x721f3d65),
                 0xab1c5ed5, 0, 0xce3494b4, 0x54ab0ff0);
    hide Round;
  }

  lemma INNER1_Run1()
    ensures RunHigh(INNER1_V1, KW0, INNER1_W0) == INNER1_V2
  {
    assert Gives(Vars(0xce3494b4, 0x85c6a7f0, 0xd66e4864, 0xeba36673, 0x54ab0ff0, 0x3beff05c, 0x5c076c2b, 0x4936b04e),
                 0xd807aa98, 0, 0xafad895a, 0x9070e328);
    assert Gives(Vars(0xafad895a, 0xce3494b4, 0x85c6a7f0, 0xd66e4864, 0x9070e328, 0x54ab0ff0, 0x3beff05c, 0x5c076c2b),
                 0x12835b01, 0, 0x901c2fec, 0x7fca7cdc);
    assert Gives(Vars(0x901c2fec, 0xafad895a, 0xce3494b4, 0x85c6a7f0, 0x7fca7cdc, 0x9070e328, 0x54ab0ff0, 0x3beff05c),
                 0x243185be, 0, 0x39ea5f1b, 0x05983fb5);
    assert Gives(Vars(0x39ea5f1b, 0x901c2fec, 0xafad895a, 0xce3494b4, 0x05983fb5, 0x7fca7cdc, 0x9070e328, 0x54ab0ff0),
                 0x550c7dc3, 0, 0x87d4d797, 0xfc7e287e);
    assert Gives(Vars(0x87d4d797, 0x39ea5f1b, 0x901c2fec, 0xafad895a, 0xfc7e287e, 0x05983fb5, 0x7fca7cdc, 0x9070e328),
                 0x72be5d74, 0, 0x75f5ba65, 0x85af8ec4);
    assert Gives(Vars(0x75f5ba65, 0x87d4d797, 0x39ea5f1b, 0x901c2fec, 0x85af8ec4, 0xfc7e287e, 0x05983fb5, 0x7fca7cdc),
                 0x80deb1fe, 0, 0x30dd05d1, 0x324501c3);
    assert Gives(Vars(0x30dd05d1, 0x75f5ba65, 0x87d4d797, 0x39ea5f1b, 0x324501c3, 0x85af8ec4, 0xfc7e287e, 0x05983fb5),
                 0x9bdc06a7, 0, 0xd06247ca, 0xbdcd8bb1);
    assert Gives(Vars(0xd06247ca, 0x30dd05d1, 0x75f5ba65, 0x87d4d797, 0xbdcd8bb1, 0x324501c3, 0x85af8ec4, 0xfc7e287e),
                 0xc19bf174, 0x00000240, 0xb8ccba9a, 0xcc5b50cf);
    hide Round;
  }

  lemma INNER1_Run2()
    ensures RunLow(INNER1_V2, KW1, INNER1_W1) == INNER1_V3
  {
    assert Gives(Vars(0xb8ccba9a, 0xd06247ca, 0x30dd05d1, 0x75f5ba65, 0xcc5b50cf, 0xbdcd8bb1, 0x324501c3, 0x85af8ec4),
                 0xe49b69c1, 0xe3ae5f05, 0x107f64d4, 0x8d9c953f);
    assert Gives(Vars(0x107f64d4, 0xb8ccba9a, 0xd06247ca, 0x30dd05d1, 0x8d9c953f, 0xcc5b50cf, 0xbdcd8bb1, 0x324501c3),
                 0xefbe4786, 0x7acd9265, 0x6051c5a6, 0x21945a0e);
    assert Gives(Vars(0x6051c5a6, 0x107f64d4, 0xb8ccba9a, 0xd06247ca, 0x21945a0e, 0x8d9c953f, 0xcc5b50cf, 0xbdcd8bb1),
                 0x0fc19dc6, 0x645aa635, 0xd5c8146a, 0x839a8d38);
    assert Gives(Vars(0xd5c8146a, 0x6051c5a6, 0x107f64d4, 0xb8ccba9a, 0x839a8d38, 0x21945a0e, 0x8d9c953f, 0xcc5b50cf),
                 0x240ca1cc, 0x7b60a15b, 0x8883761c, 0xba81ebc3);
    assert Gives(Vars(0x8883761c, 0xd5c8146a, 0x6051c5a6, 0x107f64d4, 0xba81ebc3, 0x839a8d38, 0x21945a0e, 0x8d9c953f),
                 0x2de92c6f, 0x07c5080f, 0xdd265904, 0x8dc77dec);
    assert Gives(Vars(0xdd265904, 0x8883761c, 0xd5c8146a, 0x6051c5a6, 0x8dc77dec, 0xba81ebc3, 0x839a8d38, 0x21945a0e),
                 0x4a7484aa, 0x44980af4, 0x6ae0e6ed, 0x87a4ec80);
    assert Gives(Vars(0x6ae0e6ed, 0xdd265904, 0x8883761c, 0xd5c8146a, 0x87a4ec80, 0x8dc77dec, 0xba81ebc3, 0x839a8d38),
                 0x5cb0a9dc, 0x25079498, 0xba3bb3fe, 0xd9187745);
    assert Gives(Vars(0xba3bb3fe, 0x6ae0e6ed, 0xdd265904, 0x8883761c, 0xd9187745, 0x87a4ec80, 0x8dc77dec, 0xba81ebc3),
                 0x76f988da, 0xe7e3ebe2, 0xece3691c, 0x9b8f2382);
    hide Round;
  }

  lemma INNER1_Run3()
    ensures RunHigh(INNER1_V3, KW1, INNER1_W1) == INNER1_V4
  {
    assert Gives(Vars(0xece3691c, 0xba3bb3fe, 0x6ae0e6ed, 0xdd265904, 0x9b8f2382, 0xd9187745, 0x87a4ec80, 0x8dc77dec),
                 0x983e5152, 0xb3a3ea2b, 0x1ddee77b, 0x11a58d94);
    assert Gives(Vars(0x1ddee77b, 0xece3691c, 0xba3bb3fe, 0x6ae0e6ed, 0x11a58d94, 0x9b8f2382, 0xd9187745, 0x87a4ec80),
                 0xa831c66d, 0xed0f7e2c, 0x6ab4ac45, 0x9166f456);
    assert Gives(Vars(0x6ab4ac45, 0x1ddee77b, 0xece3691c, 0xba3bb3fe, 0x9166f456, 0x11a58d94, 0x9b8f2382, 0xd9187745),
                 0xb00327c8, 0x03dce8ba, 0x63c2041d, 0xc6cf5fa0);
    assert Gives(Vars(0x63c2041d, 0x6ab4ac45, 0x1ddee77b, 0xece3691c, 0xc6cf5fa0, 0x9166f456, 0x11a58d94, 0x9b8f2382),
                 0xbf597fc7, 0x58adb108, 0x318bec50, 0x428cc677);
    assert Gives(Vars(0x318bec50, 0x63c2041d, 0x6ab4ac45, 0x1ddee77b, 0x428cc677, 0xc6cf5fa0, 0x9166f456, 0x11a58d94),
                 0xc6e00bf3, 0x2de2c1a3, 0xd4ad0e4c, 0x4db711e5);
    assert Gives(Vars(0xd4ad0e4c, 0x318bec50, 0x63c2041d, 0x6ab4ac45, 0x4db711e5, 0x428cc677, 0xc6cf5fa0, 0x9166f456),
                 0xd5a79147, 0x93baa0c7, 0x94aceed1, 0x9a61b911);
    assert Gives(Vars(0x94aceed1, 0xd4ad0e4c, 0x318bec50, 0x63c2041d, 0x9a61b911, 0x4db711e5, 0x428cc677, 0xc6cf5fa0),
                 0x06ca6351, 0xa162782b, 0x40fa9b72, 0x6ff1d8be);
    assert Gives(Vars(0x40fa9b72, 0x94aceed1, 0xd4ad0e4c, 0x318bec50, 0x6ff1d8be, 0x9a61b911, 0x4db711e5, 0x428cc677),
                 0x14292967, 0x3877b122, 0x26a1971a, 0xe1bf8d0f);
    hide Round;
  }

  lemma INNER1_Run4()
    ensures RunLow(INNER1_V4, KW2, INNER1_W2) == INNER1_V5
  {
    assert Gives(Vars(0x26a1971a, 0x40fa9b72, 0x94aceed1, 0xd4ad0e4c, 0xe1bf8d0f, 0x6ff1d8be, 0x9a61b911, 0x4db711e5),
                 0x27b70a85, 0xe52c510f, 0xd4164b6e, 0xecf58218);
    assert Gives(Vars(0xd4164b6e, 0x26a1971a, 0x40fa9b72, 0x94aceed1, 0xecf58218, 0xe1bf8d0f, 0x6ff1d8be, 0x9a61b911),
                 0x2e1b2138, 0x7d347a94, 0x7fe7970c, 0x1883612a);
    assert Gives(Vars(0x7fe7970c, 0xd4164b6e, 0x26a1971a, 0x40fa9b72, 0x1883612a, 0xecf58218, 0xe1bf8d0f, 0x6ff1d8be),
                 0x4d2c6dfc, 0xf173a815, 0x154ec5ce, 0xa5db9f32);
    assert Gives(Vars(0x154ec5ce, 0x7fe7970c, 0xd4164b6e, 0x26a1971a, 0xa5db9f32, 0x1883612a, 0xecf58218, 0xe1bf8d0f),
                 0x53380d13, 0xb8404a00, 0xdc661c47, 0x1d8cc8c3);
    assert Gives(Vars(0xdc661c47, 0x154ec5ce, 0x7fe7970c, 0xd4164b6e, 0x1d8cc8c3, 0xa5db9f32, 0x1883612a, 0xecf58218),
                 0x650a7354, 0x1f5ae3c0, 0x34157628, 0x1d6eb0f8);
    assert Gives(Vars(0x34157628, 0xdc661c47, 0x154ec5ce, 0x7fe7970c, 0x1d6eb0f8, 0x1d8cc8c3, 0xa5db9f32, 0x1883612a),
                 0x766a0abb, 0xe435d354, 0x76d1ec55, 0xf8d6d122);
    assert Gives(Vars(0x76d1ec55, 0x34157628, 0xdc661c47, 0x154ec5ce, 0xf8d6d122, 0x1d6eb0f8, 0x1d8cc8c3, 0xa5db9f32),
                 0x81c2c92e, 0xaeea240b, 0xa5b00ab4, 0xcdfabbfc);
    assert Gives(Vars(0xa5b00ab4, 0x76d1ec55, 0x34157628, 0xdc661c47, 0xcdfabbfc, 0xf8d6d122, 0x1d6eb0f8, 0x1d8cc8c3),
                 0x92722c85, 0xdca3f752, 0xc8e29587, 0xb3d345df);
    hide Round;
  }

  lemma INNER1_Run5()
    ensures RunHigh(INNER1_V5, KW2, INNER1_W2) == INNER1_V6
  {
    assert Gives(Vars(0xc8e29587, 0xa5b00ab4, 0x76d1ec55, 0x34157628, 0xb3d345df, 0xcdfabbfc, 0xf8d6d122, 0x1d6eb0f8),
                 0xa2bfe8a1, 0x2378475a, 0x935ad580, 0x0e2ec1bd);
    assert Gives(Vars(0x935ad580, 0xc8e29587, 0xa5b00ab4, 0x76d1ec55, 0x0e2ec1bd, 0xb3d345df, 0xcdfabbfc, 0xf8d6d122),
                 0xa81a664b, 0xb249e7aa, 0x517dfecc, 0x62d927a2);
    assert Gives(Vars(0x517dfecc, 0x935ad580, 0xc8e29587, 0xa5b00ab4, 0x62d927a2, 0x0e2ec1bd, 0xb3d345df, 0xcdfabbfc),
                 0xc24b8b70, 0x5f52b9e4, 0x7b39cc75, 0x39a83c8c);
    assert Gives(Vars(0x7b39cc75, 0x517dfecc, 0x935ad580, 0xc8e29587, 0x39a83c8c, 0x62d927a2, 0x0e2ec1bd, 0xb3d345df),
                 0xc76c51a3, 0x3aa488ab, 0x7fc135ca, 0x1ad56f4e);
    assert Gives(Vars(0x7fc135ca, 0x7b39cc75, 0x517dfecc, 0x935ad580, 0x1ad56f4e, 0x39a83c8c, 0x62d927a2, 0x0e2ec1bd),
                 0xd192e819, 0x5353cb9b, 0x17abe18a, 0xfa181fba);
    assert Gives(Vars(0x17abe18a, 0x7fc135ca, 0x7b39cc75, 0x517dfecc, 0xfa181fba, 0x1ad56f4e, 0x39a83c8c, 0x62d927a2),
                 0xd6990624, 0xf5577ba3, 0x011929a4, 0xacb0d543);
    assert Gives(Vars(0x011929a4, 0x17abe18a, 0x7fc135ca, 0x7b39cc75, 0xacb0d543, 0xfa181fba, 0x1ad56f4e, 0x39a83c8c),
                 0xf40e3585, 0xc9e71e09, 0xf1eab7ef, 0x2bda9036);
    assert Gives(Vars(0xf1eab7ef, 0x011929a4, 0x17abe18a, 0x7fc135ca, 0x2bda9036, 0xacb0d543, 0xfa181fba, 0x1ad56f4e),
                 0x106aa070, 0xc5b4f623, 0x182dee89, 0x9c68e53c);
    hide Round;
  }

  lemma INNER1_Run6()
    ensures RunLow(INNER1_V6, KW3, INNER1_W3) == INNER1_V7
  {
    assert Gives(Vars(0x182dee89, 0xf1eab7ef, 0x011929a4, 0x17abe18a, 0x9c68e53c, 0x2bda9036, 0xacb0d543, 0xfa181fba),
                 0x19a4c116, 0x3e67d5ab, 0x73b14612, 0xf439d942);
    assert Gives(Vars(0x73b14612, 0x182dee89, 0xf1eab7ef, 0x011929a4, 0xf439d942, 0x9c68e53c, 0x2bda9036, 0xacb0d543),
                 0x1e376c08, 0xa23619d7, 0x277d49c5, 0x4d85071e);
    assert Gives(Vars(0x277d49c5, 0x73b14612, 0x182dee89, 0xf1eab7ef, 0x4d85071e, 0xf439d942, 0x9c68e53c, 0x2bda9036),
                 0x2748774c, 0x4180398e, 0xe7981953, 0xb37405bb);
    assert Gives(Vars(0xe7981953, 0x277d49c5, 0x73b14612, 0x182dee89, 0xb37405bb, 0x4d85071e, 0xf439d942, 0x9c68e53c),
                 0x34b0bcb5, 0x16b3acdf, 0xcb6a4dd6, 0x28c27e02);
    assert Gives(Vars(0xcb6a4dd6, 0xe7981953, 0x277d49c5, 0x73b14612, 0x28c27e02, 0xb37405bb, 0x4d85071e, 0xf439d942),
                 0x391c0cb3, 0xf234d122, 0x8b7ca9b9, 0xa25a12ea);
    assert Gives(Vars(0x8b7ca9b9, 0xcb6a4dd6, 0xe7981953, 0x277d49c5, 0xa25a12ea, 0x28c27e02, 0xb37405bb, 0x4d85071e),
                 0x4ed8aa4a, 0xdd913234, 0x2f56f280, 0xada69acc);
    assert Gives(Vars(0x2f56f280, 0x8b7ca9b9, 0xcb6a4dd6, 0xe7981953, 0xada69acc, 0xa25a12ea, 0x28c27e02, 0xb37405bb),
                 0x5b9cca4f, 0xab2252c2, 0x628192be, 0xfa7bfbd7);
    assert Gives(Vars(0x628192be, 0x2f56f280, 0x8b7ca9b9, 0xcb6a4dd6, 0xfa7bfbd7, 0xada69acc, 0xa25a12ea, 0x28c27e02),
                 0x682e6ff3, 0x7c76ceee, 0x04e3df1d, 0x99dff112);
    hide Round;
  }

  lemma INNER1_Run7()
    ensures RunHigh(INNER1_V7, KW3, INNER1_W3) == INNER1_V8
  {
    assert Gives(Vars(0x04e3df1d, 0x628192be, 0x2f56f280, 0x8b7ca9b9, 0x99dff112, 0xfa7bfbd7, 0xada69acc, 0xa25a12ea),
                 0x748f82ee, 0x63892d3a, 0x1c2c03cc, 0x4a38361f);
    assert Gives(Vars(0x1c2c03cc, 0x04e3df1d, 0x628192be, 0x2f56f280, 0x4a38361f, 0x99dff112, 0xfa7bfbd7, 0xada69acc),
                 0x78a5636f, 0x1fadf2d9, 0x4f36f8e0, 0xd08785e1);
    assert Gives(Vars(0x4f36f8e0, 0x1c2c03cc, 0x04e3df1d, 0x628192be, 0xd08785e1, 0x4a38361f, 0x99dff112, 0xfa7bfbd7),
                 0x84c87814, 0x9c341d6e, 0xf8df25fa, 0x400d9639);
    assert Gives(Vars(0xf8df25fa, 0x4f36f8e0, 0x1c2c03cc, 0x04e3df1d, 0x400d9639, 0xd08785e1, 0x4a38361f, 0x99dff112),
                 0x8cc70208, 0x4233ab5c, 0x21a97433, 0xdcd74d04);
    assert Gives(Vars(0x21a97433, 0xf8df25fa, 0x4f36f8e0, 0x1c2c03cc, 0xdcd74d04, 0x400d9639, 0xd08785e1, 0x4a38361f),
                 0x90befffa, 0x45cb4b40, 0x6ef95da0, 0x55424fb9);
    assert Gives(Vars(0x6ef95da0, 0x21a97433, 0xf8df25fa, 0x4f36f8e0, 0x55424fb9, 0xdcd74d04, 0x400d9639, 0xd08785e1),
                 0xa4506ceb, 0x0e7c539e, 0x07c1b812, 0xda339a27);
    assert Gives(Vars(0x07c1b812, 0x6ef95da0, 0x21a97433, 0xf8df25fa, 0xda339a27, 0x55424fb9, 0xdcd74d04, 0x400d9639),
                 0xbef9a3f7, 0x75ec4bca, 0xfb820559, 0x84f7970b);
    assert Gives(Vars(0xfb820559, 0x07c1b812, 0x6ef95da0, 0x21a97433, 0x84f7970b, 0xda339a27, 0x55424fb9, 0xdcd74d04),
                 0xc67178f2, 0x71d877c9, 0x66f93596, 0xbca75211);
    hide Round;
  }

  const INNER1_OUT: seq<bv32> :=
    [0x92ab4d9a, 0x1f3b6152, 0xbca9dd9e, 0x69af43f4, 0xce99e42f, 0xd4e30ff9, 0x72c48025, 0xb9f9cfef]

  lemma INNER1_Compress(b: seq<byte>)
    requires |b| == 64 && Window(b, 0, INNER1_W0)
    ensures Compress(INNER0_OUT, b) == INNER1_OUT
  {
    INNER1_Next0();
    INNER1_Next1();
    INNER1_Next2();
    INNER1_Run0();
    INNER1_Run1();
    INNER1_Run2();
    INNER1_Run3();
    INNER1_Run4();
    INNER1_Run5();
    INNER1_Run6();
    INNER1_Run7();
    hide Next, RunLow, RunHigh, Window;
    assert VarsOf(INNER0_OUT) == INNER1_V0;
    CompressIs(INNER0_OUT, b, INNER1_W0, INNER1_W1, INNER1_W2, INNER1_W3);
    INNER1_Added();
  }

  lemma INNER1_Added()
    ensures Added(INNER0_OUT, INNER1_V8) == INNER1_OUT
  {
    var r := Added(INNER0_OUT, INNER1_V8);
    assert r[0] == INNER1_OUT[0] && r[1] == INNER1_OUT[1] && r[2] == INNER1_OUT[2] && r[3] == INNER1_OUT[3];
    assert r[4] == INNER1_OUT[4] && r[5] == INNER1_OUT[5] && r[6] == INNER1_OUT[6] && r[7] == INNER1_OUT[7];
  }

  lemma INNER1_Ends(b: seq<byte>)
    requires |b| == 64 && b[..8] == TEXT && b[8] == 0x80 && b[9] == b[10] == b[11] == 0
    requires b[60] == b[61] == 0 && b[62] == 2 && b[63] == 0x40
    ensures WordAt(b, 0) == 0x48692054 && WordAt(b, 1) == 0x68657265
    ensures WordAt(b, 2) == 0x80000000 && WordAt(b, 15) == 0x00000240
  {
    hide WordAt;
    assert b[0] == b[..8][0] && b[1] == b[..8][1] && b[2] == b[..8][2] && b[3] == b[..8][3];
    assert b[4] == b[..8][4] && b[5] == b[..8][5] && b[6] == b[..8][6] && b[7] == b[..8][7];
    FourBytes(b, 0, 0x48, 0x69, 0x20, 0x54, 0x48692054);
    FourBytes(b, 1, 0x68, 0x65, 0x72, 0x65, 0x68657265);
    FourBytes(b, 2, 0x80, 0, 0, 0, 0x80000000);
    FourBytes(b, 15, 0, 0, 2, 0x40, 0x00000240);
  }

  lemma INNER1_Zeros(b: seq<byte>)
    requires |b| == 64 && forall i :: 12 <= i < 60 ==> b[i] == 0
    ensures forall k :: 3 <= k < 15 ==> WordAt(b, k) == 0
  {
    hide WordAt;
    EvenWords(b, 3, 15, 0, 0);
  }

  lemma INNER1_Tail()
    ensures Window(Tail(TEXT, 576), 0, INNER1_W0)
  {
    hide Window, Be64, WordAt, WordOf;
    SmallLength(576);
    var b := Tail(TEXT, 576);
    assert b[..8] == TEXT;
    INNER1_Ends(b);
    INNER1_Zeros(b);
    WindowOf(b, INNER1_W0);
  }

  lemma InnerDigest()
    ensures Digest(Masked(BlockKey(KEY), IPAD) + TEXT) == BytesOf(INNER1_OUT)
  {
    hide Compress, Tail, Digest, BytesOf, Window, Masked, BlockKey;
    DigestLonger(Masked(BlockKey(KEY), IPAD), TEXT);
    INNER0_Block();
    INNER1_Tail();
    INNER1_Compress(Tail(TEXT, 576));
  }

  // ---- the outer digest ---------------------------------------------------

  const OUTER0_W0 := Sixteen(
    0x57575757, 0x57575757, 0x57575757, 0x57575757, 0x57575757, 0x5c5c5c5c, 0x5c5c5c5c, 0x5c5c5c5c, 0x5c5c5c5c,
    0x5c5c5c5c, 0x5c5c5c5c, 0x5c5c5c5c, 0x5c5c5c5c, 0x5c5c5c5c, 0x5c5c5c5c, 0x5c5c5c5c)
  const OUTER0_W1 := Sixteen(
    0xcaf7f7f6, 0xcaf7f7f6, 0x2a7c471c, 0x2a7c471c, 0x033ee737, 0x0843ec3c, 0x0c5a8b1d, 0x57140e48, 0xe066a97a,
    0xb1f5ac07, 0xaca6fd31, 0x676ebb66, 0xa9da3734, 0x97a13091, 0xb4eb4623, 0x0478baea)
  const OUTER0_W2 := Sixteen(
    0x521cdde2, 0xeea4ccb6, 0xb42161ee, 0xabf8e3ec, 0xb9df94e3, 0xc425187d, 0xe375de48, 0x1bc3e05e, 0x963dd978,
    0xbbbb45cb, 0x1f514b8d, 0xdd666dc2, 0x78af495c, 0xf701cecf, 0x18882647, 0x72d98ff5)
  const OUTER0_W3 := Sixteen(
    0x68e9dcaf, 0x97a67d8d, 0x5c33fa12, 0x4b6b61c2, 0xd8516549, 0xb3b35d6c, 0x3be3aef3, 0xdf9ac597, 0x22004a47,
    0x9d75fe9e, 0x9c8758db, 0x5c273d08, 0x66720a51, 0x30c97cc0, 0xc3e1cdaa, 0x4bb53874)
  const OUTER0_V0 :=
    Vars(0x6a09e667, 0xbb67ae85, 0x3c6ef372, 0xa54ff53a, 0x510e527f, 0x9b05688c, 0x1f83d9ab, 0x5be0cd19)
  const OUTER0_V1 :=
    Vars(0x1a2c02e9, 0xf046b3db, 0xc6c531ff, 0xd8488af1, 0x8e33ded1, 0x6c172a91, 0x1720b67c, 0x9fdbd50a)
  const OUTER0_V2 :=
    Vars(0x40aad1e6, 0xcea50343, 0xdea615b5, 0x2201a121, 0xdff2975a, 0xb43cd567, 0x0b0403e6, 0x4d4ee4b6)
  const OUTER0_V3 :=
    Vars(0x5154ff48, 0x6fe3e2ce, 0xa5b08b89, 0x3adb583f, 0xeb7c381e, 0xe346ff5d, 0xd69e5998, 0xdb86909e)
  const OUTER0_V4 :=
    Vars(0xc07d698b, 0x2ad89477, 0x927e71d9, 0xb849e8c8, 0x03d7688d, 0x7863bc42, 0xd56ea8e1, 0xa6f942f1)
  const OUTER0_V5 :=
    Vars(0x0129c145, 0x5b9fffa5, 0xe1a9212c, 0x7850b66f, 0x86fb4e59, 0xac5e6f16, 0x0b4479d3, 0x55a29690)
  const OUTER0_V6 :=
    Vars(0x47715b1e, 0xf1fc8092, 0x93bd252d, 0x52d78031, 0x4be4311d, 0xb910d5c2, 0xad26734c, 0xc1e22213)
  const OUTER0_V7 :=
    Vars(0x0409b203, 0xe3d281c0, 0x79226613, 0x93738c5d, 0x0847ac5d, 0x1d4bdc89, 0x2a3a92ff, 0x8eb3b7b9)
  const OUTER0_V8 :=
    Vars(0xbddd8d38, 0x1dee76fe, 0x1a677370, 0xba3118ae, 0x9b4ffd0b, 0xba37e72c, 0x1d7b470f, 0xb4427e27)

  lemma OUTER0_Next0()
    ensures Next(OUTER0_W0, OUTER0_W1)
  {
    assert Sum4(SmallSigma1(0x5c5c5c5c), 0x5c5c5c5c, SmallSigma0(0x57575757), 0x57575757) == 0xcaf7f7f6;
    assert Sum4(SmallSigma1(0x5c5c5c5c), 0x5c5c5c5c, SmallSigma0(0x57575757), 0x57575757) == 0xcaf7f7f6;
    assert Sum4(SmallSigma1(0xcaf7f7f6), 0x5c5c5c5c, SmallSigma0(0x57575757), 0x57575757) == 0x2a7c471c;
    assert Sum4(SmallSigma1(0xcaf7f7f6), 0x5c5c5c5c, SmallSigma0(0x57575757), 0x57575757) == 0x2a7c471c;
    assert Sum4(SmallSigma1(0x2a7c471c), 0x5c5c5c5c, SmallSigma0(0x5c5c5c5c), 0x57575757) == 0x033ee737;
    assert Sum4(SmallSigma1(0x2a7c471c), 0x5c5c5c5c, SmallSigma0(0x5c5c5c5c), 0x5c5c5c5c) == 0x0843ec3c;
    assert Sum4(SmallSigma1(0x033ee737), 0x5c5c5c5c, SmallSigma0(0x5c5c5c5c), 0x5c5c5c5c) == 0x0c5a8b1d;
    assert Sum4(SmallSigma1(0x0843ec3c), 0xcaf7f7f6, SmallSigma0(0x5c5c5c5c), 0x5c5c5c5c) == 0x57140e48;
    assert Sum4(SmallSigma1(0x0c5a8b1d), 0xcaf7f7f6, SmallSigma0(0x5c5c5c5c), 0x5c5c5c5c) == 0xe066a97a;
    assert Sum4(SmallSigma1(0x57140e48), 0x2a7c471c, SmallSigma0(0x5c5c5c5c), 0x5c5c5c5c) == 0xb1f5ac07;
    assert Sum4(SmallSigma1(0xe066a97a), 0x2a7c471c, SmallSigma0(0x5c5c5c5c), 0x5c5c5c5c) == 0xaca6fd31;
    assert Sum4(SmallSigma1(0xb1f5ac07), 0x033ee737, SmallSigma0(0x5c5c5c5c), 0x5c5c5c5c) == 0x676ebb66;
    assert Sum4(SmallSigma1(0xaca6fd31), 0x0843ec3c, SmallSigma0(0x5c5c5c5c), 0x5c5c5c5c) == 0xa9da3734;
    assert Sum4(SmallSigma1(0x676ebb66), 0x0c5a8b1d, SmallSigma0(0x5c5c5c5c), 0x5c5c5c5c) == 0x97a13091;
    assert Sum4(SmallSigma1(0xa9da3734), 0x57140e48, SmallSigma0(0x5c5c5c5c), 0x5c5c5c5c) == 0xb4eb4623;
    assert Sum4(SmallSigma1(0x97a13091), 0xe066a97a, SmallSigma0(0xcaf7f7f6), 0x5c5c5c5c) == 0x0478baea;
    hide Sum4, SmallSigma0, SmallSigma1;
  }

  lemma OUTER0_Next1()
    ensures Next(OUTER0_W1, OUTER0_W2)
  {
    assert Sum4(SmallSigma1(0xb4eb4623), 0xb1f5ac07, SmallSigma0(0xcaf7f7f6), 0xcaf7f7f6) == 0x521cdde2;
    assert Sum4(SmallSigma1(0x0478baea), 0xaca6fd31, SmallSigma0(0x2a7c471c), 0xcaf7f7f6) == 0xeea4ccb6;
    assert Sum4(SmallSigma1(0x521cdde2), 0x676ebb66, SmallSigma0(0x2a7c471c), 0x2a7c471c) == 0xb42161ee;
    assert Sum4(SmallSigma1(0xeea4ccb6), 0xa9da3734, SmallSigma0(0x033ee737), 0x2a7c471c) == 0xabf8e3ec;
    assert Sum4(SmallSigma1(0xb42161ee), 0x97a13091, SmallSigma0(0x0843ec3c), 0x033ee737) == 0xb9df94e3;
    assert Sum4(SmallSigma1(0xabf8e3ec), 0xb4eb4623, SmallSigma0(0x0c5a8b1d), 0x0843ec3c) == 0xc425187d;
    assert Sum4(SmallSigma1(0xb9df94e3), 0x0478baea, SmallSigma0(0x57140e48), 0x0c5a8b1d) == 0xe375de48;
    assert Sum4(SmallSigma1(0xc425187d), 0x521cdde2, SmallSigma0(0xe066a97a), 0x57140e48) == 0x1bc3e05e;
    assert Sum4(SmallSigma1(0xe375de48), 0xeea4ccb6, SmallSigma0(0xb1f5ac07), 0xe066a97a) == 0x963dd978;
    assert Sum4(SmallSigma1(0x1bc3e05e), 0xb42161ee, SmallSigma0(0xaca6fd31), 0xb1f5ac07) == 0xbbbb45cb;
    assert Sum4(SmallSigma1(0x963dd978), 0xabf8e3ec, SmallSigma0(0x676ebb66), 0xaca6fd31) == 0x1f514b8d;
    assert Sum4(SmallSigma1(0xbbbb45cb), 0xb9df94e3, SmallSigma0(0xa9da3734), 0x676ebb66) == 0xdd666dc2;
    assert Sum4(SmallSigma1(0x1f514b8d), 0xc425187d, SmallSigma0(0x97a13091), 0xa9da3734) == 0x78af495c;
    assert Sum4(SmallSigma1(0xdd666dc2), 0xe375de48, SmallSigma0(0xb4eb4623), 0x97a13091) == 0xf701cecf;
    assert Sum4(SmallSigma1(0x78af495c), 0x1bc3e05e, SmallSigma0(0x0478baea), 0xb4eb4623) == 0x18882647;
    assert Sum4(SmallSigma1(0xf701cecf), 0x963dd978, SmallSigma0(0x521cdde2), 0x0478baea) == 0x72d98ff5;
    hide Sum4, SmallSigma0, SmallSigma1;
  }

  lemma OUTER0_Next2()
    ensures Next(OUTER0_W2, OUTER0_W3)
  {
    assert Sum4(SmallSigma1(0x18882647), 0xbbbb45cb, SmallSigma0(0xeea4ccb6), 0x521cdde2) == 0x68e9dcaf;
    assert Sum4(SmallSigma1(0x72d98ff5), 0x1f514b8d, SmallSigma0(0xb42161ee), 0xeea4ccb6) == 0x97a67d8d;
    assert Sum4(SmallSigma1(0x68e9dcaf), 0xdd666dc2, SmallSigma0(0xabf8e3ec), 0xb42161ee) == 0x5c33fa12;
    assert Sum4(SmallSigma1(0x97a67d8d), 0x78af495c, SmallSigma0(0xb9df94e3), 0xabf8e3ec) == 0x4b6b61c2;
    assert Sum4(SmallSigma1(0x5c33fa12), 0xf701cecf, SmallSigma0(0xc425187d), 0xb9df94e3) == 0xd8516549;
    assert Sum4(SmallSigma1(0x4b6b61c2), 0x18882647, SmallSigma0(0xe375de48), 0xc425187d) == 0xb3b35d6c;
    assert Sum4(SmallSigma1(0xd8516549), 0x72d98ff5, SmallSigma0(0x1bc3e05e), 0xe375de48) == 0x3be3aef3;
    assert Sum4(SmallSigma1(0xb3b35d6c), 0x68e9dcaf, SmallSigma0(0x963dd978), 0x1bc3e05e) == 0xdf9ac597;
    assert Sum4(SmallSigma1(0x3be3aef3), 0x97a67d8d, SmallSigma0(0xbbbb45cb), 0x963dd978) == 0x22004a47;
    assert Sum4(SmallSigma1(0xdf9ac597), 0x5c33fa12, SmallSigma0(0x1f514b8d), 0xbbbb45cb) == 0x9d75fe9e;
    assert Sum4(SmallSigma1(0x22004a47), 0x4b6b61c2, SmallSigma0(0xdd666dc2), 0x1f514b8d) == 0x9c8758db;
    assert Sum4(SmallSigma1(0x9d75fe9e), 0xd8516549, SmallSigma0(0x78af495c), 0xdd666dc2) == 0x5c273d08;
    assert Sum4(SmallSigma1(0x9c8758db), 0xb3b35d6c, SmallSigma0(0xf701cecf), 0x78af495c) == 0x66720a51;
    assert Sum4(SmallSigma1(0x5c273d08), 0x3be3aef3, SmallSigma0(0x18882647), 0xf701cecf) == 0x30c97cc0;
    assert Sum4(SmallSigma1(0x66720a51), 0xdf9ac597, SmallSigma0(0x72d98ff5), 0x18882647) == 0xc3e1cdaa;
    assert Sum4(SmallSigma1(0x30c97cc0), 0x22004a47, SmallSigma0(0x68e9dcaf), 0x72d98ff5) == 0x4bb53874;
    hide Sum4, SmallSigma0, SmallSigma1;
  }

  lemma OUTER0_Run0()
    ensures RunLow(OUTER0_V0, KW0, OUTER0_W0) == OUTER0_V1
  {
    assert Gives(Vars(0x6a09e667, 0xbb67ae85, 0x3c6ef372, 0xa54ff53a, 0x510e527f, 0x9b05688c, 0x1f83d9ab, 0x5be0cd19),
                 0x428a2f98, 0x57575757, 0x535fdfa4, 0xf01f39f9);
    assert Gives(Vars(0x535fdfa4, 0x6a09e667, 0xbb67ae85, 0x3c6ef372, 0xf01f39f9, 0x510e527f, 0x9b05688c, 0x1f83d9ab),
                 0x71374491, 0x57575757, 0x2c5f3507, 0x56f23d7a);
    assert Gives(Vars(0x2c5f3507, 0x535fdfa4, 0x6a09e667, 0xbb67ae85, 0x56f23d7a, 0xf01f39f9, 0x510e527f, 0x9b05688c),
                 0xb5c0fbcf, 0x57575757, 0xc2a68cf8, 0xf3b3914d);
    assert Gives(Vars(0xc2a68cf8, 0x2c5f3507, 0x535fdfa4, 0x6a09e667, 0xf3b3914d, 0x56f23d7a, 0xf01f39f9, 0x510e527f),
                 0xe9b5dba5, 0x57575757, 0xbc4dd0e5, 0x169bc4a8);
    assert Gives(Vars(0xbc4dd0e5, 0xc2a68cf8, 0x2c5f3507, 0x535fdfa4, 0x169bc4a8, 0xf3b3914d, 0x56f23d7a, 0xf01f39f9),
                 0x3956c25b, 0x57575757, 0xd8488af1, 0x9fdbd50a);
    assert Gives(Vars(0xd8488af1, 0xbc4dd0e5, 0xc2a68cf8, 0x2c5f3507, 0x9fdbd50a, 0x169bc4a8, 0xf3b3914d, 0x56f23d7a),
                 0x59f111f1, 0x5c5c5c5c, 0xc6c531ff, 0x1720b67c);
    assert Gives(Vars(0xc6c531ff, 0xd8488af1, 0xbc4dd0e5, 0xc2a68cf8, 0x1720b67c, 0x9fdbd50a, 0x169bc4a8, 0xf3b3914d),
                 0x923f82a4, 0x5c5c5c5c, 0xf046b3db, 0x6c172a91);
    assert Gives(Vars(0xf046b3db, 0xc6c531ff, 0xd8488af1, 0xbc4dd0e5, 0x6c172a91, 0x1720b67c, 0x9fdbd50a, 0x169bc4a8),
                 0xab1c5ed5, 0x5c5c5c5c, 0x1a2c02e9, 0x8e33ded1);
    hide Round;
  }

  lemma OUTER0_Run1()
    ensures RunHigh(OUTER0_V1, KW0, OUTER0_W0) == OUTER0_V2
  {
    assert Gives(Vars(0x1a2c02e9, 0xf046b3db, 0xc6c531ff, 0xd8488af1, 0x8e33ded1, 0x6c172a91, 0x1720b67c, 0x9fdbd50a),
                 0xd807aa98, 0x5c5c5c5c, 0x2b46122f, 0x4f81f373);
    assert Gives(Vars(0x2b46122f, 0x1a2c02e9, 0xf046b3db, 0xc6c531ff, 0x4f81f373, 0x8e33ded1, 0x6c172a91, 0x1720b67c),
                 0x12835b01, 0x5c5c5c5c, 0x95ed0bff, 0xde8bc8fd);
    assert Gives(Vars(0x95ed0bff, 0x2b46122f, 0x1a2c02e9, 0xf046b3db, 0xde8bc8fd, 0x4f81f373, 0x8e33ded1, 0x6c172a91),
                 0x243185be, 0x5c5c5c5c, 0x12907a80, 0xd8c317ac);
    assert Gives(Vars(0x12907a80, 0x95ed0bff, 0x2b46122f, 0x1a2c02e9, 0xd8c317ac, 0xde8bc8fd, 0x4f81f373, 0x8e33ded1),
                 0x550c7dc3, 0x5c5c5c5c, 0xeba70157, 0x60c05f28);
    assert Gives(Vars(0xeba70157, 0x12907a80, 0x95ed0bff, 0x2b46122f, 0x60c05f28, 0xd8c317ac, 0xde8bc8fd, 0x4f81f373),
                 0x72be5d74, 0x5c5c5c5c, 0x2201a121, 0x4d4ee4b6);
    assert Gives(Vars(0x2201a121, 0xeba70157, 0x12907a80, 0x95ed0bff, 0x4d4ee4b6, 0x60c05f28, 0xd8c317ac, 0xde8bc8fd),
                 0x80deb1fe, 0x5c5c5c5c, 0xdea615b5, 0x0b0403e6);
    assert Gives(Vars(0xdea615b5, 0x2201a121, 0xeba70157, 0x12907a80, 0x0b0403e6, 0x4d4ee4b6, 0x60c05f28, 0xd8c317ac),
                 0x9bdc06a7, 0x5c5c5c5c, 0xcea50343, 0xb43cd567);
    assert Gives(Vars(0xcea50343, 0xdea615b5, 0x2201a121, 0xeba70157, 0xb43cd567, 0x0b0403e6, 0x4d4ee4b6, 0x60c05f28),
                 0xc19bf174, 0x5c5c5c5c, 0x40aad1e6, 0xdff2975a);
    hide Round;
  }

  lemma OUTER0_Run2()
    ensures RunLow(OUTER0_V2, KW1, OUTER0_W1) == OUTER0_V3
  {
    assert Gives(Vars(0x40aad1e6, 0xcea50343, 0xdea615b5, 0x2201a121, 0xdff2975a, 0xb43cd567, 0x0b0403e6, 0x4d4ee4b6),
                 0xe49b69c1, 0xcaf7f7f6, 0x8d8bafc7, 0x2c8816d4);
    assert Gives(Vars(0x8d8bafc7, 0x40aad1e6, 0xcea50343, 0xdea615b5, 0x2c8816d4, 0xdff2975a, 0xb43cd567, 0x0b0403e6),
                 0xefbe4786, 0xcaf7f7f6, 0xb1391385, 0x0f520bd9);
    assert Gives(Vars(0xb1391385, 0x8d8bafc7, 0x40aad1e6, 0xcea50343, 0x0f520bd9, 0x2c8816d4, 0xdff2975a, 0xb43cd567),
                 0x0fc19dc6, 0x2a7c471c, 0x170e0fb8, 0x4fd9a347);
    assert Gives(Vars(0x170e0fb8, 0xb1391385, 0x8d8bafc7, 0x40aad1e6, 0x4fd9a347, 0x0f520bd9, 0x2c8816d4, 0xdff2975a),
                 0x240ca1cc, 0x2a7c471c, 0xcc1bc178, 0x377da817);
    assert Gives(Vars(0xcc1bc178, 0x170e0fb8, 0xb1391385, 0x8d8bafc7, 0x377da817, 0x4fd9a347, 0x0f520bd9, 0x2c8816d4),
                 0x2de92c6f, 0x033ee737, 0x3adb583f, 0xdb86909e);
    assert Gives(Vars(0x3adb583f, 0xcc1bc178, 0x170e0fb8, 0xb1391385, 0xdb86909e, 0x377da817, 0x4fd9a347, 0x0f520bd9),
                 0x4a7484aa, 0x0843ec3c, 0xa5b08b89, 0xd69e5998);
    assert Gives(Vars(0xa5b08b89, 0x3adb583f, 0xcc1bc178, 0x170e0fb8, 0xd69e5998, 0xdb86909e, 0x377da817, 0x4fd9a347),
                 0x5cb0a9dc, 0x0c5a8b1d, 0x6fe3e2ce, 0xe346ff5d);
    assert Gives(Vars(0x6fe3e2ce, 0xa5b08b89, 0x3adb583f, 0xcc1bc178, 0xe346ff5d, 0xd69e5998, 0xdb86909e, 0x377da817),
                 0x76f988da, 0x57140e48, 0x5154ff48, 0xeb7c381e);
    hide Round;
  }

  lemma OUTER0_Run3()
    ensures RunHigh(OUTER0_V3, KW1, OUTER0_W1) == OUTER0_V4
  {
    assert Gives(Vars(0x5154ff48, 0x6fe3e2ce, 0xa5b08b89, 0x3adb583f, 0xeb7c381e, 0xe346ff5d, 0xd69e5998, 0xdb86909e),
                 0x983e5152, 0xe066a97a, 0x363a1510, 0x4d39ed57);
    assert Gives(Vars(0x363a1510, 0x5154ff48, 0x6fe3e2ce, 0xa5b08b89, 0x4d39ed57, 0xeb7c381e, 0xe346ff5d, 0xd69e5998),
                 0xa831c66d, 0xb1f5ac07, 0x4c3e5cec, 0x2d207ce1);
    assert Gives(Vars(0x4c3e5cec, 0x363a1510, 0x5154ff48, 0x6fe3e2ce, 0x2d207ce1, 0x4d39ed57, 0xeb7c381e, 0xe346ff5d),
                 0xb00327c8, 0xaca6fd31, 0xf9798b60, 0x0800c8ed);
    assert Gives(Vars(0xf9798b60, 0x4c3e5cec, 0x363a1510, 0x5154ff48, 0x0800c8ed, 0x2d207ce1, 0x4d39ed57, 0xeb7c381e),
                 0xbf597fc7, 0x676ebb66, 0x09119f4d, 0x5ab85644);
    assert Gives(Vars(0x09119f4d, 0xf9798b60, 0x4c3e5cec, 0x363a1510, 0x5ab85644, 0x0800c8ed, 0x2d207ce1, 0x4d39ed57),
                 0xc6e00bf3, 0xa9da3734, 0xb849e8c8, 0xa6f942f1);
    assert Gives(Vars(0xb849e8c8, 0x09119f4d, 0xf9798b60, 0x4c3e5cec, 0xa6f942f1, 0x5ab85644, 0x0800c8ed, 0x2d207ce1),
                 0xd5a79147, 0x97a13091, 0x927e71d9, 0xd56ea8e1);
    assert Gives(Vars(0x927e71d9, 0xb849e8c8, 0x09119f4d, 0xf9798b60, 0xd56ea8e1, 0xa6f942f1, 0x5ab85644, 0x0800c8ed),
                 0x06ca6351, 0xb4eb4623, 0x2ad89477, 0x7863bc42);
    assert Gives(Vars(0x2ad89477, 0x927e71d9, 0xb849e8c8, 0x09119f4d, 0x7863bc42, 0xd56ea8e1, 0xa6f942f1, 0x5ab85644),
                 0x14292967, 0x0478baea, 0xc07d698b, 0x03d7688d);
    hide Round;
  }

  lemma OUTER0_Run4()
    ensures RunLow(OUTER0_V4, KW2, OUTER0_W2) == OUTER0_V5
  {
    assert Gives(Vars(0xc07d698b, 0x2ad89477, 0x927e71d9, 0xb849e8c8, 0x03d7688d, 0x7863bc42, 0xd56ea8e1, 0xa6f942f1),
                 0x27b70a85, 0x521cdde2, 0x8fb81de9, 0x7b9e1e4e);
    assert Gives(Vars(0x8fb81de9, 0xc07d698b, 0x2ad89477, 0x927e71d9, 0x7b9e1e4e, 0x03d7688d, 0x7863bc42, 0xd56ea8e1),
                 0x2e1b2138, 0xeea4ccb6, 0x2d2265d1, 0xc7d2dd3b);
    assert Gives(Vars(0x2d2265d1, 0x8fb81de9, 0xc07d698b, 0x2ad89477, 0xc7d2dd3b, 0x7b9e1e4e, 0x03d7688d, 0x7863bc42),
                 0x4d2c6dfc, 0xb42161ee, 0xd7e11822, 0x892a89fd);
    assert Gives(Vars(0xd7e11822, 0x2d2265d1, 0x8fb81de9, 0xc07d698b, 0x892a89fd, 0xc7d2dd3b, 0x7b9e1e4e, 0x03d7688d),
                 0x53380d13, 0xabf8e3ec, 0xd39efab9, 0x13edd404);
    assert Gives(Vars(0xd39efab9, 0xd7e11822, 0x2d2265d1, 0x8fb81de9, 0x13edd404, 0x892a89fd, 0xc7d2dd3b, 0x7b9e1e4e),
                 0x650a7354, 0xb9df94e3, 0x7850b66f, 0x55a29690);
    assert Gives(Vars(0x7850b66f, 0xd39efab9, 0xd7e11822, 0x2d2265d1, 0x55a29690, 0x13edd404, 0x892a89fd, 0xc7d2dd3b),
                 0x766a0abb, 0xc425187d, 0xe1a9212c, 0x0b4479d3);
    assert Gives(Vars(0xe1a9212c, 0x7850b66f, 0xd39efab9, 0xd7e11822, 0x0b4479d3, 0x55a29690, 0x13edd404, 0x892a89fd),
                 0x81c2c92e, 0xe375de48, 0x5b9fffa5, 0xac5e6f16);
    assert Gives(Vars(0x5b9fffa5, 0xe1a9212c, 0x7850b66f, 0xd39efab9, 0xac5e6f16, 0x0b4479d3, 0x55a29690, 0x13edd404),
                 0x92722c85, 0x1bc3e05e, 0x0129c145, 0x86fb4e59);
    hide Round;
  }

  lemma OUTER0_Run5()
    ensures RunHigh(OUTER0_V5, KW2, OUTER0_W2) == OUTER0_V6
  {
    assert Gives(Vars(0x0129c145, 0x5b9fffa5, 0xe1a9212c, 0x7850b66f, 0x86fb4e59, 0xac5e6f16, 0x0b4479d3, 0x55a29690),
                 0xa2bfe8a1, 0x963dd978, 0x1b9c450e, 0x64dbad3d);
    assert Gives(Vars(0x1b9c450e, 0x0129c145, 0x5b9fffa5, 0xe1a9212c, 0x64dbad3d, 0x86fb4e59, 0xac5e6f16, 0x0b4479d3),
                 0xa81a664b, 0xbbbb45cb, 0x37049a4b, 0x1d8c00a3);
    assert Gives(Vars(0x37049a4b, 0x1b9c450e, 0x0129c145, 0x5b9fffa5, 0x1d8c00a3, 0x64dbad3d, 0x86fb4e59, 0xac5e6f16),
                 0xc24b8b70, 0x1f514b8d, 0x940ad851, 0xceac643d);
    assert Gives(Vars(0x940ad851, 0x37049a4b, 0x1b9c450e, 0x0129c145, 0xceac643d, 0x1d8c00a3, 0x64dbad3d, 0x86fb4e59),
                 0xc76c51a3, 0xdd666dc2, 0x235b3a37, 0x8088d31f);
    assert Gives(Vars(0x235b3a37, 0x940ad851, 0x37049a4b, 0x1b9c450e, 0x8088d31f, 0xceac643d, 0x1d8c00a3, 0x64dbad3d),
                 0xd192e819, 0x78af495c, 0x52d78031, 0xc1e22213);
    assert Gives(Vars(0x52d78031, 0x235b3a37, 0x940ad851, 0x37049a4b, 0xc1e22213, 0x8088d31f, 0xceac643d, 0x1d8c00a3),
                 0xd6990624, 0xf701cecf, 0x93bd252d, 0xad26734c);
    assert Gives(Vars(0x93bd252d, 0x52d78031, 0x235b3a37, 0x940ad851, 0xad26734c, 0xc1e22213, 0x8088d31f, 0xceac643d),
                 0xf40e3585, 0x18882647, 0xf1fc8092, 0xb910d5c2);
    assert Gives(Vars(0xf1fc8092, 0x93bd252d, 0x52d78031, 0x235b3a37, 0xb910d5c2, 0xad26734c, 0xc1e22213, 0x8088d31f),
                 0x106aa070, 0x72d98ff5, 0x47715b1e, 0x4be4311d);
    hide Round;
  }

  lemma OUTER0_Run6()
    ensures RunLow(OUTER0_V6, KW3, OUTER0_W3) == OUTER0_V7
  {
    assert Gives(Vars(0x47715b1e, 0xf1fc8092, 0x93bd252d, 0x52d78031, 0x4be4311d, 0xb910d5c2, 0xad26734c, 0xc1e22213),
                 0x19a4c116, 0x68e9dcaf, 0xf6508b6d, 0xe8e8f630);
    assert Gives(Vars(0xf6508b6d, 0x47715b1e, 0xf1fc8092, 0x93bd252d, 0xe8e8f630, 0x4be4311d, 0xb910d5c2, 0xad26734c),
                 0x1e376c08, 0x97a67d8d, 0x8b00e809, 0xc2775a92);
    assert Gives(Vars(0x8b00e809, 0xf6508b6d, 0x47715b1e, 0xf1fc8092, 0xc2775a92, 0xe8e8f630, 0x4be4311d, 0xb910d5c2),
                 0x2748774c, 0x5c33fa12, 0x11e7a453, 0x1b6715af);
    assert Gives(Vars(0x11e7a453, 0x8b00e809, 0xf6508b6d, 0x47715b1e, 0x1b6715af, 0xc2775a92, 0xe8e8f630, 0x4be4311d),
                 0x34b0bcb5, 0x4b6b61c2, 0x74a53c16, 0xb065c47d);
    assert Gives(Vars(0x74a53c16, 0x11e7a453, 0x8b00e809, 0xf6508b6d, 0xb065c47d, 0x1b6715af, 0xc2775a92, 0xe8e8f630),
                 0x391c0cb3, 0xd8516549, 0x93738c5d, 0x8eb3b7b9);
    assert Gives(Vars(0x93738c5d, 0x74a53c16, 0x11e7a453, 0x8b00e809, 0x8eb3b7b9, 0xb065c47d, 0x1b6715af, 0xc2775a92),
                 0x4ed8aa4a, 0xb3b35d6c, 0x79226613, 0x2a3a92ff);
    assert Gives(Vars(0x79226613, 0x93738c5d, 0x74a53c16, 0x11e7a453, 0x2a3a92ff, 0x8eb3b7b9, 0xb065c47d, 0x1b6715af),
                 0x5b9cca4f, 0x3be3aef3, 0xe3d281c0, 0x1d4bdc89);
    assert Gives(Vars(0xe3d281c0, 0x79226613, 0x93738c5d, 0x74a53c16, 0x1d4bdc89, 0x2a3a92ff, 0x8eb3b7b9, 0xb065c47d),
                 0x682e6ff3, 0xdf9ac597, 0x0409b203, 0x0847ac5d);
    hide Round;
  }

  lemma OUTER0_Run7()
    ensures RunHigh(OUTER0_V7, KW3, OUTER0_W3) == OUTER0_V8
  {
    assert Gives(Vars(0x0409b203, 0xe3d281c0, 0x79226613, 0x93738c5d, 0x0847ac5d, 0x1d4bdc89, 0x2a3a92ff, 0x8eb3b7b9),
                 0x748f82ee, 0x22004a47, 0x04ea3f39, 0xbf88e8b6);
    assert Gives(Vars(0x04ea3f39, 0x0409b203, 0xe3d281c0, 0x79226613, 0xbf88e8b6, 0x0847ac5d, 0x1d4bdc89, 0x2a3a92ff),
                 0x78a5636f, 0x9d75fe9e, 0x65d03a96, 0xca19a11c);
    assert Gives(Vars(0x65d03a96, 0x04ea3f39, 0x0409b203, 0xe3d281c0, 0xca19a11c, 0xbf88e8b6, 0x0847ac5d, 0x1d4bdc89),
                 0x84c87814, 0x9c8758db, 0x3741b968, 0x091e8762);
    assert Gives(Vars(0x3741b968, 0x65d03a96, 0x04ea3f39, 0x0409b203, 0x091e8762, 0xca19a11c, 0xbf88e8b6, 0x0847ac5d),
                 0x8cc70208, 0x5c273d08, 0x812a6d8c, 0x9eff6fcd);
    assert Gives(Vars(0x812a6d8c, 0x3741b968, 0x65d03a96, 0x04ea3f39, 0x9eff6fcd, 0x091e8762, 0xca19a11c, 0xbf88e8b6),
                 0x90befffa, 0x66720a51, 0xba3118ae, 0xb4427e27);
    assert Gives(Vars(0xba3118ae, 0x812a6d8c, 0x3741b968, 0x65d03a96, 0xb4427e27, 0x9eff6fcd, 0x091e8762, 0xca19a11c),
                 0xa4506ceb, 0x30c97cc0, 0x1a677370, 0x1d7b470f);
    assert Gives(Vars(0x1a677370, 0xba3118ae, 0x812a6d8c, 0x3741b968, 0x1d7b470f, 0xb4427e27, 0x9eff6fcd, 0x091e8762),
                 0xbef9a3f7, 0xc3e1cdaa, 0x1dee76fe, 0xba37e72c);
    assert Gives(Vars(0x1dee76fe, 0x1a677370, 0xba3118ae, 0x812a6d8c, 0xba37e72c, 0x1d7b470f, 0xb4427e27, 0x9eff6fcd),
                 0xc67178f2, 0x4bb53874, 0xbddd8d38, 0x9b4ffd0b);
    hide Round;
  }

  const OUTER0_OUT: seq<bv32> :=
    [0x27e7739f, 0xd9562583, 0x56d666e2, 0x5f810de8, 0xec5e4f8a, 0x553d4fb8, 0x3cff20ba, 0x10234b40]

  lemma OUTER0_Compress(b: seq<byte>)
    requires |b| == 64 && Window(b, 0, OUTER0_W0)
    ensures Compress(IV, b) == OUTER0_OUT
  {
    OUTER0_Next0();
    OUTER0_Next1();
    OUTER0_Next2();
    OUTER0_Run0();
    OUTER0_Run1();
    OUTER0_Run2();
    OUTER0_Run3();
    OUTER0_Run4();
    OUTER0_Run5();
    OUTER0_Run6();
    OUTER0_Run7();
    hide Next, RunLow, RunHigh, Window;
    assert VarsOf(IV) == OUTER0_V0;
    CompressIs(IV, b, OUTER0_W0, OUTER0_W1, OUTER0_W2, OUTER0_W3);
    OUTER0_Added();
  }

  lemma OUTER0_Added()
    ensures Added(IV, OUTER0_V8) == OUTER0_OUT
  {
    var r := Added(IV, OUTER0_V8);
    assert r[0] == OUTER0_OUT[0] && r[1] == OUTER0_OUT[1] && r[2] == OUTER0_OUT[2] && r[3] == OUTER0_OUT[3];
    assert r[4] == OUTER0_OUT[4] && r[5] == OUTER0_OUT[5] && r[6] == OUTER0_OUT[6] && r[7] == OUTER0_OUT[7];
  }

  lemma OUTER0_Block()
    ensures Compress(IV, Masked(BlockKey(KEY), OPAD)) == OUTER0_OUT
  {
    hide Window, WordAt, Compress, BlockKey, Xor;
    PadBytes();
    var b := Masked(BlockKey(KEY), OPAD);
    PadBlock(b, OPAD, 0x57, 0x5c);
    OUTER0_Words(b);
    OUTER0_Compress(b);
  }

  lemma OUTER0_Words(b: seq<byte>)
    requires |b| == 64 && (forall i :: 0 <= i < 20 ==> b[i] == 0x57) && forall i :: 20 <= i < 64 ==> b[i] == 0x5c
    ensures Window(b, 0, OUTER0_W0)
  {
    hide Window, WordAt;
    OUTER0_Low(b);
    OUTER0_High(b);
    hide WordOf;
    WindowOf(b, OUTER0_W0);
  }

  lemma OUTER0_Low(b: seq<byte>)
    requires |b| == 64 && forall i :: 0 <= i < 20 ==> b[i] == 0x57
    ensures forall k :: 0 <= k < 5 ==> WordAt(b, k) == 0x57575757
  {
    hide WordAt;
    EvenWords(b, 0, 5, 0x57, 0x57575757);
  }

  lemma OUTER0_High(b: seq<byte>)
    requires |b| == 64 && forall i :: 20 <= i < 64 ==> b[i] == 0x5c
    ensures forall k :: 5 <= k < 16 ==> WordAt(b, k) == 0x5c5c5c5c
  {
    hide WordAt;
    EvenWords(b, 5, 16, 0x5c, 0x5c5c5c5c);
  }

  const OUTER1_W0 := Sixteen(
    0x92ab4d9a, 0x1f3b6152, 0xbca9dd9e, 0x69af43f4, 0xce99e42f, 0xd4e30ff9, 0x72c48025, 0xb9f9cfef, 0x80000000, 0, 0,
    0, 0, 0, 0, 0x00000300)
  const OUTER1_W1 := Sixteen(
    0x1238eac0, 0x7ea72874, 0x5a020f91, 0x1a205a2c, 0x3f91bdc9, 0x5fec5bf0, 0x17ce0396, 0x83c4b9cc, 0xc0636312,
    0x26013045, 0xf7fb7b11, 0xfdb57555, 0x32c397cc, 0x2c0d2fc7, 0x3d97ea0e, 0xab473ee1)
  const OUTER1_W2 := Sixteen(
    0x6db88c7f, 0x9938e7f6, 0xfd5e07a7, 0xb7071ea0, 0x2c758847, 0xb861ac28, 0xdf41f008, 0xba84b45e, 0xe26c5d24,
    0xd3be4795, 0x3d29cb4a, 0x9106b33b, 0x8810cbdb, 0x7c7878ce, 0x8e575314, 0x918947ab)
  const OUTER1_W3 := Sixteen(
    0x4d2ae2c8, 0x33200f90, 0x4bb9e092, 0x2f165377, 0xa2ae5cad, 0xa0ec416a, 0xdde9378a, 0xf3204226, 0x72c57c4a,
    0x29f17dc0, 0x47bd2466, 0x59ec5869, 0xecef729b, 0xeda51486, 0xed962388, 0x4ec4a0ee)
  const OUTER1_V0 :=
    Vars(0x27e7739f, 0xd9562583, 0x56d666e2, 0x5f810de8, 0xec5e4f8a, 0x553d4fb8, 0x3cff20ba, 0x10234b40)
  const OUTER1_V1 :=
    Vars(0xa9e77929, 0xf1f1cf0e, 0xff3144eb, 0x43f9fb8c, 0x8c9a1d72, 0x7abc3f46, 0x576210a0, 0xf38ef73a)
  const OUTER1_V2 :=
    Vars(0x4bf55010, 0x0bbc9099, 0xb8dc0fcd, 0x6239a99b, 0x5a1511db, 0x5dcafdde, 0x731d63e2, 0xf833b364)
  const OUTER1_V3 :=
    Vars(0xc0468ae6, 0x2dfd894e, 0x373165dc, 0x89446b43, 0x6b8a9d06, 0xb61cf65b, 0xcb064053, 0xbf56ffeb)
  const OUTER1_V4 :=
    Vars(0x93a56a9d, 0x4e89e357, 0x78df84e4, 0x7270c6b6, 0xb70ef198, 0xfc163cf1, 0x3e227000, 0x3f694601)
  const OUTER1_V5 :=
    Vars(0x3e1e0532, 0x9c15c962, 0xd5684c51, 0x8dfc637e, 0xc56e47b4, 0x020a2fdd, 0xca03e83d, 0x7c61d0da)
  const OUTER1_V6 :=
    Vars(0xf7f803da, 0x4679edd7, 0x2843e607, 0x6e5caa92, 0x31e65d4a, 0x58cc4ed9, 0x0ec8a69d, 0x85d7f703)
  const OUTER1_V7 :=
    Vars(0x9cd75623, 0xd97fbff0, 0x6385dcaf, 0x8777852f, 0xba02d93c, 0x537426f8, 0xe5116204, 0x1de2f6e3)
  const OUTER1_V8 :=
    Vars(0x884cd8c2, 0xff8512d0, 0x05d248ec, 0x4f8ae343, 0x9bbf7276, 0x7445edef, 0xe9ea16b2, 0x1e0f84b7)

  lemma OUTER1_SumsLow()
    ensures Sum4(SmallSigma1(0), 0, SmallSigma0(0x1f3b6152), 0x92ab4d9a) == 0x1238eac0
    ensures Sum4(SmallSigma1(0x00000300), 0, SmallSigma0(0xbca9dd9e), 0x1f3b6152) == 0x7ea72874
    ensures Sum4(SmallSigma1(0x1238eac0), 0, SmallSigma0(0x69af43f4), 0xbca9dd9e) == 0x5a020f91
    ensures Sum4(SmallSigma1(0x7ea72874), 0, SmallSigma0(0xce99e42f), 0x69af43f4) == 0x1a205a2c
    ensures Sum4(SmallSigma1(0x5a020f91), 0, SmallSigma0(0xd4e30ff9), 0xce99e42f) == 0x3f91bdc9
    ensures Sum4(SmallSigma1(0x1a205a2c), 0, SmallSigma0(0x72c48025), 0xd4e30ff9) == 0x5fec5bf0
    ensures Sum4(SmallSigma1(0x3f91bdc9), 0x00000300, SmallSigma0(0xb9f9cfef), 0x72c48025) == 0x17ce0396
    ensures Sum4(SmallSigma1(0x5fec5bf0), 0x1238eac0, SmallSigma0(0x80000000), 0xb9f9cfef) == 0x83c4b9cc
  {
  }

  lemma OUTER1_SumsHigh()
    ensures Sum4(SmallSigma1(0x17ce0396), 0x7ea72874, SmallSigma0(0), 0x80000000) == 0xc0636312
    ensures Sum4(SmallSigma1(0x83c4b9cc), 0x5a020f91, SmallSigma0(0), 0) == 0x26013045
    ensures Sum4(SmallSigma1(0xc0636312), 0x1a205a2c, SmallSigma0(0), 0) == 0xf7fb7b11
    ensures Sum4(SmallSigma1(0x26013045), 0x3f91bdc9, SmallSigma0(0), 0) == 0xfdb57555
    ensures Sum4(SmallSigma1(0xf7fb7b11), 0x5fec5bf0, SmallSigma0(0), 0) == 0x32c397cc
    ensures Sum4(SmallSigma1(0xfdb57555), 0x17ce0396, SmallSigma0(0), 0) == 0x2c0d2fc7
    ensures Sum4(SmallSigma1(0x32c397cc), 0x83c4b9cc, SmallSigma0(0x00000300), 0) == 0x3d97ea0e
    ensures Sum4(SmallSigma1(0x2c0d2fc7), 0xc0636312, SmallSigma0(0x1238eac0), 0x00000300) == 0xab473ee1
  {
  }

  lemma OUTER1_First()
    ensures Next(
      Sixteen(
        0x92ab4d9a, 0x1f3b6152, 0xbca9dd9e, 0x69af43f4, 0xce99e42f, 0xd4e30ff9, 0x72c48025, 0xb9f9cfef, 0x80000000, 0,
        0, 0, 0, 0, 0, 0x00000300),
      Sixteen(
        0x1238eac0, 0x7ea72874, 0x5a020f91, 0x1a205a2c, 0x3f91bdc9, 0x5fec5bf0, 0x17ce0396, 0x83c4b9cc, 0xc0636312,
        0x26013045, 0xf7fb7b11, 0xfdb57555, 0x32c397cc, 0x2c0d2fc7, 0x3d97ea0e, 0xab473ee1))
  {
    hide Sum4, SmallSigma0, SmallSigma1;
    OUTER1_SumsLow();
    OUTER1_SumsHigh();
    NextWords(
        0x92ab4d9a, 0x1f3b6152, 0xbca9dd9e, 0x69af43f4, 0xce99e42f, 0xd4e30ff9, 0x72c48025, 0xb9f9cfef, 0x80000000, 0,
        0, 0, 0, 0, 0, 0x00000300,
        0x1238eac0, 0x7ea72874, 0x5a020f91, 0x1a205a2c, 0x3f91bdc9, 0x5fec5bf0, 0x17ce0396, 0x83c4b9cc, 0xc0636312,
        0x26013045, 0xf7fb7b11, 0xfdb57555, 0x32c397cc, 0x2c0d2fc7, 0x3d97ea0e, 0xab473ee1);
  }

  lemma OUTER1_Next0()
    ensures Next(OUTER1_W0, OUTER1_W1)
  {
    hide Next, Sum4, SmallSigma0, SmallSigma1;
    OUTER1_First();
  }

  lemma OUTER1_Next1()
    ensures Next(OUTER1_W1, OUTER1_W2)
  {
    assert Sum4(SmallSigma1(0x3d97ea0e), 0x26013045, SmallSigma0(0x7ea72874), 0x1238eac0) == 0x6db88c7f;
    assert Sum4(SmallSigma1(0xab473ee1), 0xf7fb7b11, SmallSigma0(0x5a020f91), 0x7ea72874) == 0x9938e7f6;
    assert Sum4(SmallSigma1(0x6db88c7f), 0xfdb57555, SmallSigma0(0x1a205a2c), 0x5a020f91) == 0xfd5e07a7;
    assert Sum4(SmallSigma1(0x9938e7f6), 0x32c397cc, SmallSigma0(0x3f91bdc9), 0x1a205a2c) == 0xb7071ea0;
    assert Sum4(SmallSigma1(0xfd5e07a7), 0x2c0d2fc7, SmallSigma0(0x5fec5bf0), 0x3f91bdc9) == 0x2c758847;
    assert Sum4(SmallSigma1(0xb7071ea0), 0x3d97ea0e, SmallSigma0(0x17ce0396), 0x5fec5bf0) == 0xb861ac28;
    assert Sum4(SmallSigma1(0x2c758847), 0xab473ee1, SmallSigma0(0x83c4b9cc), 0x17ce0396) == 0xdf41f008;
    assert Sum4(SmallSigma1(0xb861ac28), 0x6db88c7f, SmallSigma0(0xc0636312), 0x83c4b9cc) == 0xba84b45e;
    assert Sum4(SmallSigma1(0xdf41f008), 0x9938e7f6, SmallSigma0(0x26013045), 0xc0636312) == 0xe26c5d24;
    assert Sum4(SmallSigma1(0xba84b45e), 0xfd5e07a7, SmallSigma0(0xf7fb7b11), 0x26013045) == 0xd3be4795;
    assert Sum4(SmallSigma1(0xe26c5d24), 0xb7071ea0, SmallSigma0(0xfdb57555), 0xf7fb7b11) == 0x3d29cb4a;
    assert Sum4(SmallSigma1(0xd3be4795), 0x2c758847, SmallSigma0(0x32c397cc), 0xfdb57555) == 0x9106b33b;
    assert Sum4(SmallSigma1(0x3d29cb4a), 0xb861ac28, SmallSigma0(0x2c0d2fc7), 0x32c397cc) == 0x8810cbdb;
    assert Sum4(SmallSigma1(0x9106b33b), 0xdf41f008, SmallSigma0(0x3d97ea0e), 0x2c0d2fc7) == 0x7c7878ce;
    assert Sum4(SmallSigma1(0x8810cbdb), 0xba84b45e, SmallSigma0(0xab473ee1), 0x3d97ea0e) == 0x8e575314;
    assert Sum4(SmallSigma1(0x7c7878ce), 0xe26c5d24, SmallSigma0(0x6db88c7f), 0xab473ee1) == 0x918947ab;
    hide Sum4, SmallSigma0, SmallSigma1;
  }

  lemma OUTER1_Next2()
    ensures Next(OUTER1_W2, OUTER1_W3)
  {
    assert Sum4(SmallSigma1(0x8e575314), 0xd3be4795, SmallSigma0(0x9938e7f6), 0x6db88c7f) == 0x4d2ae2c8;
    assert Sum4(SmallSigma1(0x918947ab), 0x3d29cb4a, SmallSigma0(0xfd5e07a7), 0x9938e7f6) == 0x33200f90;
    assert Sum4(SmallSigma1(0x4d2ae2c8), 0x9106b33b, SmallSigma0(0xb7071ea0), 0xfd5e07a7) == 0x4bb9e092;
    assert Sum4(SmallSigma1(0x33200f90), 0x8810cbdb, SmallSigma0(0x2c758847), 0xb7071ea0) == 0x2f165377;
    assert Sum4(SmallSigma1(0x4bb9e092), 0x7c7878ce, SmallSigma0(0xb861ac28), 0x2c758847) == 0xa2ae5cad;
    assert Sum4(SmallSigma1(0x2f165377), 0x8e575314, SmallSigma0(0xdf41f008), 0xb861ac28) == 0xa0ec416a;
    assert Sum4(SmallSigma1(0xa2ae5cad), 0x918947ab, SmallSigma0(0xba84b45e), 0xdf41f008) == 0xdde9378a;
    assert Sum4(SmallSigma1(0xa0ec416a), 0x4d2ae2c8, SmallSigma0(0xe26c5d24), 0xba84b45e) == 0xf3204226;
    assert Sum4(SmallSigma1(0xdde9378a), 0x33200f90, SmallSigma0(0xd3be4795), 0xe26c5d24) == 0x72c57c4a;
    assert Sum4(SmallSigma1(0xf3204226), 0x4bb9e092, SmallSigma0(0x3d29cb4a), 0xd3be4795) == 0x29f17dc0;
    assert Sum4(SmallSigma1(0x72c57c4a), 0x2f165377, SmallSigma0(0x9106b33b), 0x3d29cb4a) == 0x47bd2466;
    assert Sum4(SmallSigma1(0x29f17dc0), 0xa2ae5cad, SmallSigma0(0x8810cbdb), 0x9106b33b) == 0x59ec5869;
    assert Sum4(SmallSigma1(0x47bd2466), 0xa0ec416a, SmallSigma0(0x7c7878ce), 0x8810cbdb) == 0xecef729b;
    assert Sum4(SmallSigma1(0x59ec5869), 0xdde9378a, SmallSigma0(0x8e575314), 0x7c7878ce) == 0xeda51486;
    assert Sum4(SmallSigma1(0xecef729b), 0xf3204226, SmallSigma0(0x918947ab), 0x8e575314) == 0xed962388;
    assert Sum4(SmallSigma1(0xeda51486), 0x72c57c4a, SmallSigma0(0x4d2ae2c8), 0x918947ab) == 0x4ec4a0ee;
    hide Sum4, SmallSigma0, SmallSigma1;
  }

  lemma OUTER1_Run0()
    ensures RunLow(OUTER1_V0, KW0, OUTER1_W0) == OUTER1_V1
  {
    assert Gives(Vars(0x27e7739f, 0xd9562583, 0x56d666e2, 0x5f810de8, 0xec5e4f8a, 0x553d4fb8, 0x3cff20ba, 0x10234b40),
                 0x428a2f98, 0x92ab4d9a, 0x50867671, 0x8f627d93);
    assert Gives(Vars(0x50867671, 0x27e7739f, 0xd9562583, 0x56d666e2, 0x8f627d93, 0xec5e4f8a, 0x553d4fb8, 0x3cff20ba),
                 0x71374491, 0x1f3b6152, 0x477d1745, 0x4e1a29a7);
    assert Gives(Vars(0x477d1745, 0x50867671, 0x27e7739f, 0xd9562583, 0x4e1a29a7, 0x8f627d93, 0xec5e4f8a, 0x553d4fb8),
                 0xb5c0fbcf, 0xbca9dd9e, 0x8243f36d, 0xf40a3677);
    assert Gives(Vars(0x8243f36d, 0x477d1745, 0x50867671, 0x27e7739f, 0xf40a3677, 0x4e1a29a7, 0x8f627d93, 0xec5e4f8a),
                 0xe9b5dba5, 0x69af43f4, 0xd9dc3b61, 0xcb4adece);
    assert Gives(Vars(0xd9dc3b61, 0x8243f36d, 0x477d1745, 0x50867671, 0xcb4adece, 0xf40a3677, 0x4e1a29a7, 0x8f627d93),
                 0x3956c25b, 0xce99e42f, 0x43f9fb8c, 0xf38ef73a);
    assert Gives(Vars(0x43f9fb8c, 0xd9dc3b61, 0x8243f36d, 0x477d1745, 0xf38ef73a, 0xcb4adece, 0xf40a3677, 0x4e1a29a7),
                 0x59f111f1, 0xd4e30ff9, 0xff3144eb, 0x576210a0);
    assert Gives(Vars(0xff3144eb, 0x43f9fb8c, 0xd9dc3b61, 0x8243f36d, 0x576210a0, 0xf38ef73a, 0xcb4adece, 0xf40a3677),
                 0x923f82a4, 0x72c48025, 0xf1f1cf0e, 0x7abc3f46);
    assert Gives(Vars(0xf1f1cf0e, 0xff3144eb, 0x43f9fb8c, 0xd9dc3b61, 0x7abc3f46, 0x576210a0, 0xf38ef73a, 0xcb4adece),
                 0xab1c5ed5, 0xb9f9cfef, 0xa9e77929, 0x8c9a1d72);
    hide Round;
  }

  lemma OUTER1_Run1()
    ensures RunHigh(OUTER1_V1, KW0, OUTER1_W0) == OUTER1_V2
  {
    assert Gives(Vars(0xa9e77929, 0xf1f1cf0e, 0xff3144eb, 0x43f9fb8c, 0x8c9a1d72, 0x7abc3f46, 0x576210a0, 0xf38ef73a),
                 0xd807aa98, 0x80000000, 0x09bd8705, 0x14f5fd90);
    assert Gives(Vars(0x09bd8705, 0xa9e77929, 0xf1f1cf0e, 0xff3144eb, 0x14f5fd90, 0x8c9a1d72, 0x7abc3f46, 0x576210a0),
                 0x12835b01, 0, 0x977e1352, 0x605e5125);
    assert Gives(Vars(0x977e1352, 0x09bd8705, 0xa9e77929, 0xf1f1cf0e, 0x605e5125, 0x14f5fd90, 0x8c9a1d72, 0x7abc3f46),
                 0x243185be, 0, 0x1acd8b0e, 0xbbb9d1a2);
    assert Gives(Vars(0x1acd8b0e, 0x977e1352, 0x09bd8705, 0xa9e77929, 0xbbb9d1a2, 0x605e5125, 0x14f5fd90, 0x8c9a1d72),
                 0x550c7dc3, 0, 0x6d416950, 0x123bd2af);
    assert Gives(Vars(0x6d416950, 0x1acd8b0e, 0x977e1352, 0x09bd8705, 0x123bd2af, 0xbbb9d1a2, 0x605e5125, 0x14f5fd90),
                 0x72be5d74, 0, 0x6239a99b, 0xf833b364);
    assert Gives(Vars(0x6239a99b, 0x6d416950, 0x1acd8b0e, 0x977e1352, 0xf833b364, 0x123bd2af, 0xbbb9d1a2, 0x605e5125),
                 0x80deb1fe, 0, 0xb8dc0fcd, 0x731d63e2);
    assert Gives(Vars(0xb8dc0fcd, 0x6239a99b, 0x6d416950, 0x1acd8b0e, 0x731d63e2, 0xf833b364, 0x123bd2af, 0xbbb9d1a2),
                 0x9bdc06a7, 0, 0x0bbc9099, 0x5dcafdde);
    assert Gives(Vars(0x0bbc9099, 0xb8dc0fcd, 0x6239a99b, 0x6d416950, 0x5dcafdde, 0x731d63e2, 0xf833b364, 0x123bd2af),
                 0xc19bf174, 0x00000300, 0x4bf55010, 0x5a1511db);
    hide Round;
  }

  lemma OUTER1_Run2()
    ensures RunLow(OUTER1_V2, KW1, OUTER1_W1) == OUTER1_V3
  {
    assert Gives(Vars(0x4bf55010, 0x0bbc9099, 0xb8dc0fcd, 0x6239a99b, 0x5a1511db, 0x5dcafdde, 0x731d63e2, 0xf833b364),
                 0xe49b69c1, 0x1238eac0, 0x17d7d241, 0x26d620c2);
    assert Gives(Vars(0x17d7d241, 0x4bf55010, 0x0bbc9099, 0xb8dc0fcd, 0x26d620c2, 0x5a1511db, 0x5dcafdde, 0x731d63e2),
                 0xefbe4786, 0x7ea72874, 0x4d19b390, 0x714ba4db);
    assert Gives(Vars(0x4d19b390, 0x17d7d241, 0x4bf55010, 0x0bbc9099, 0x714ba4db, 0x26d620c2, 0x5a1511db, 0x5dcafdde),
                 0x0fc19dc6, 0x5a020f91, 0x7e3e5e83, 0x511ad7ef);
    assert Gives(Vars(0x7e3e5e83, 0x4d19b390, 0x17d7d241, 0x4bf55010, 0x511ad7ef, 0x714ba4db, 0x26d620c2, 0x5a1511db),
                 0x240ca1cc, 0x1a205a2c, 0x0fe4b076, 0x29cbc25b);
    assert Gives(Vars(0x0fe4b076, 0x7e3e5e83, 0x4d19b390, 0x17d7d241, 0x29cbc25b, 0x511ad7ef, 0x714ba4db, 0x26d620c2),
                 0x2de92c6f, 0x3f91bdc9, 0x89446b43, 0xbf56ffeb);
    assert Gives(Vars(0x89446b43, 0x0fe4b076, 0x7e3e5e83, 0x4d19b390, 0xbf56ffeb, 0x29cbc25b, 0x511ad7ef, 0x714ba4db),
                 0x4a7484aa, 0x5fec5bf0, 0x373165dc, 0xcb064053);
    assert Gives(Vars(0x373165dc, 0x89446b43, 0x0fe4b076, 0x7e3e5e83, 0xcb064053, 0xbf56ffeb, 0x29cbc25b, 0x511ad7ef),
                 0x5cb0a9dc, 0x17ce0396, 0x2dfd894e, 0xb61cf65b);
    assert Gives(Vars(0x2dfd894e, 0x373165dc, 0x89446b43, 0x0fe4b076, 0xb61cf65b, 0xcb064053, 0xbf56ffeb, 0x29cbc25b),
                 0x76f988da, 0x83c4b9cc, 0xc0468ae6, 0x6b8a9d06);
    hide Round;
  }

  lemma OUTER1_Run3()
    ensures RunHigh(OUTER1_V3, KW1, OUTER1_W1) == OUTER1_V4
  {
    assert Gives(Vars(0xc0468ae6, 0x2dfd894e, 0x373165dc, 0x89446b43, 0x6b8a9d06, 0xb61cf65b, 0xcb064053, 0xbf56ffeb),
                 0x983e5152, 0xc0636312, 0x58b5260e, 0xbf77cbf7);
    assert Gives(Vars(0x58b5260e, 0xc0468ae6, 0x2dfd894e, 0x373165dc, 0xbf77cbf7, 0x6b8a9d06, 0xb61cf65b, 0xcb064053),
                 0xa831c66d, 0x26013045, 0x9bf0fdb2, 0x176523f8);
    assert Gives(Vars(0x9bf0fdb2, 0x58b5260e, 0xc0468ae6, 0x2dfd894e, 0x176523f8, 0xbf77cbf7, 0x6b8a9d06, 0xb61cf65b),
                 0xb00327c8, 0xf7fb7b11, 0x6d6c9674, 0x39d74698);
    assert Gives(Vars(0x6d6c9674, 0x9bf0fdb2, 0x58b5260e, 0xc0468ae6, 0x39d74698, 0x176523f8, 0xbf77cbf7, 0x6b8a9d06),
                 0xbf597fc7, 0xfdb57555, 0x8cd89f91, 0xd888d4f5);
    assert Gives(Vars(0x8cd89f91, 0x6d6c9674, 0x9bf0fdb2, 0x58b5260e, 0xd888d4f5, 0x39d74698, 0x176523f8, 0xbf77cbf7),
                 0xc6e00bf3, 0x32c397cc, 0x7270c6b6, 0x3f694601);
    assert Gives(Vars(0x7270c6b6, 0x8cd89f91, 0x6d6c9674, 0x9bf0fdb2, 0x3f694601, 0xd888d4f5, 0x39d74698, 0x176523f8),
                 0xd5a79147, 0x2c0d2fc7, 0x78df84e4, 0x3e227000);
    assert Gives(Vars(0x78df84e4, 0x7270c6b6, 0x8cd89f91, 0x6d6c9674, 0x3e227000, 0x3f694601, 0xd888d4f5, 0x39d74698),
                 0x06ca6351, 0x3d97ea0e, 0x4e89e357, 0xfc163cf1);
    assert Gives(Vars(0x4e89e357, 0x78df84e4, 0x7270c6b6, 0x8cd89f91, 0xfc163cf1, 0x3e227000, 0x3f694601, 0xd888d4f5),
                 0x14292967, 0xab473ee1, 0x93a56a9d, 0xb70ef198);
    hide Round;
  }

  lemma OUTER1_Run4()
    ensures RunLow(OUTER1_V4, KW2, OUTER1_W2) == OUTER1_V5
  {
    assert Gives(Vars(0x93a56a9d, 0x4e89e357, 0x78df84e4, 0x7270c6b6, 0xb70ef198, 0xfc163cf1, 0x3e227000, 0x3f694601),
                 0x27b70a85, 0x6db88c7f, 0x67eeb86f, 0xda21ea8e);
    assert Gives(Vars(0x67eeb86f, 0x93a56a9d, 0x4e89e357, 0x78df84e4, 0xda21ea8e, 0xb70ef198, 0xfc163cf1, 0x3e227000),
                 0x2e1b2138, 0x9938e7f6, 0x1de30a71, 0xaeb37805);
    assert Gives(Vars(0x1de30a71, 0x67eeb86f, 0x93a56a9d, 0x4e89e357, 0xaeb37805, 0xda21ea8e, 0xb70ef198, 0xfc163cf1),
                 0x4d2c6dfc, 0xfd5e07a7, 0xe242c9f8, 0x800b98df);
    assert Gives(Vars(0xe242c9f8, 0x1de30a71, 0x67eeb86f, 0x93a56a9d, 0x800b98df, 0xaeb37805, 0xda21ea8e, 0xb70ef198),
                 0x53380d13, 0xb7071ea0, 0xe000a47a, 0x8f5342bd);
    assert Gives(Vars(0xe000a47a, 0xe242c9f8, 0x1de30a71, 0x67eeb86f, 0x8f5342bd, 0x800b98df, 0xaeb37805, 0xda21ea8e),
                 0x650a7354, 0x2c758847, 0x8dfc637e, 0x7c61d0da);
    assert Gives(Vars(0x8dfc637e, 0xe000a47a, 0xe242c9f8, 0x1de30a71, 0x7c61d0da, 0x8f5342bd, 0x800b98df, 0xaeb37805),
                 0x766a0abb, 0xb861ac28, 0xd5684c51, 0xca03e83d);
    assert Gives(Vars(0xd5684c51, 0x8dfc637e, 0xe000a47a, 0xe242c9f8, 0xca03e83d, 0x7c61d0da, 0x8f5342bd, 0x800b98df),
                 0x81c2c92e, 0xdf41f008, 0x9c15c962, 0x020a2fdd);
    assert Gives(Vars(0x9c15c962, 0xd5684c51, 0x8dfc637e, 0xe000a47a, 0x020a2fdd, 0xca03e83d, 0x7c61d0da, 0x8f5342bd),
                 0x92722c85, 0xba84b45e, 0x3e1e0532, 0xc56e47b4);
    hide Round;
  }

  lemma OUTER1_Run5()
    ensures RunHigh(OUTER1_V5, KW2, OUTER1_W2) == OUTER1_V6
  {
    assert Gives(Vars(0x3e1e0532, 0x9c15c962, 0xd5684c51, 0x8dfc637e, 0xc56e47b4, 0x020a2fdd, 0xca03e83d, 0x7c61d0da),
                 0xa2bfe8a1, 0xe26c5d24, 0x18679ba6, 0x2c44f86e);
    assert Gives(Vars(0x18679ba6, 0x3e1e0532, 0x9c15c962, 0xd5684c51, 0x2c44f86e, 0xc56e47b4, 0x020a2fdd, 0xca03e83d),
                 0xa81a664b, 0xd3be4795, 0xc492d110, 0xb89bd68b);
    assert Gives(Vars(0xc492d110, 0x18679ba6, 0x3e1e0532, 0x9c15c962, 0xb89bd68b, 0x2c44f86e, 0xc56e47b4, 0x020a2fdd),
                 0xc24b8b70, 0x3d29cb4a, 0x305ff6c3, 0xbd785b33);
    assert Gives(Vars(0x305ff6c3, 0xc492d110, 0x18679ba6, 0x3e1e0532, 0xbd785b33, 0xb89bd68b, 0x2c44f86e, 0xc56e47b4),
                 0xc76c51a3, 0x9106b33b, 0x00db5daa, 0x28cc1bcc);
    assert Gives(Vars(0x00db5daa, 0x305ff6c3, 0xc492d110, 0x18679ba6, 0x28cc1bcc, 0xbd785b33, 0xb89bd68b, 0x2c44f86e),
                 0xd192e819, 0x8810cbdb, 0x6e5caa92, 0x85d7f703);
    assert Gives(Vars(0x6e5caa92, 0x00db5daa, 0x305ff6c3, 0xc492d110, 0x85d7f703, 0x28cc1bcc, 0xbd785b33, 0xb89bd68b),
                 0xd6990624, 0x7c7878ce, 0x2843e607, 0x0ec8a69d);
    assert Gives(Vars(0x2843e607, 0x6e5caa92, 0x00db5daa, 0x305ff6c3, 0x0ec8a69d, 0x85d7f703, 0x28cc1bcc, 0xbd785b33),
                 0xf40e3585, 0x8e575314, 0x4679edd7, 0x58cc4ed9);
    assert Gives(Vars(0x4679edd7, 0x2843e607, 0x6e5caa92, 0x00db5daa, 0x58cc4ed9, 0x0ec8a69d, 0x85d7f703, 0x28cc1bcc),
                 0x106aa070, 0x918947ab, 0xf7f803da, 0x31e65d4a);
    hide Round;
  }

  lemma OUTER1_Run6()
    ensures RunLow(OUTER1_V6, KW3, OUTER1_W3) == OUTER1_V7
  {
    assert Gives(Vars(0xf7f803da, 0x4679edd7, 0x2843e607, 0x6e5caa92, 0x31e65d4a, 0x58cc4ed9, 0x0ec8a69d, 0x85d7f703),
                 0x19a4c116, 0x4d2ae2c8, 0x27c44724, 0xec8034f6);
    assert Gives(Vars(0x27c44724, 0xf7f803da, 0x4679edd7, 0x2843e607, 0xec8034f6, 0x31e65d4a, 0x58cc4ed9, 0x0ec8a69d),
                 0x1e376c08, 0x33200f90, 0x2027736d, 0xbea6522a);
    assert Gives(Vars(0x2027736d, 0x27c44724, 0xf7f803da, 0x4679edd7, 0xbea6522a, 0xec8034f6, 0x31e65d4a, 0x58cc4ed9),
                 0x2748774c, 0x4bb9e092, 0xaca4c9c2, 0x7c8d0acd);
    assert Gives(Vars(0xaca4c9c2, 0x2027736d, 0x27c44724, 0xf7f803da, 0x7c8d0acd, 0xbea6522a, 0xec8034f6, 0x31e65d4a),
                 0x34b0bcb5, 0x2f165377, 0x17ca082c, 0x75026abe);
    assert Gives(Vars(0x17ca082c, 0xaca4c9c2, 0x2027736d, 0x27c44724, 0x75026abe, 0x7c8d0acd, 0xbea6522a, 0xec8034f6),
                 0x391c0cb3, 0xa2ae5cad, 0x8777852f, 0x1de2f6e3);
    assert Gives(Vars(0x8777852f, 0x17ca082c, 0xaca4c9c2, 0x2027736d, 0x1de2f6e3, 0x75026abe, 0x7c8d0acd, 0xbea6522a),
                 0x4ed8aa4a, 0xa0ec416a, 0x6385dcaf, 0xe5116204);
    assert Gives(Vars(0x6385dcaf, 0x8777852f, 0x17ca082c, 0xaca4c9c2, 0xe5116204, 0x1de2f6e3, 0x75026abe, 0x7c8d0acd),
                 0x5b9cca4f, 0xdde9378a, 0xd97fbff0, 0x537426f8);
    assert Gives(Vars(0xd97fbff0, 0x6385dcaf, 0x8777852f, 0x17ca082c, 0x537426f8, 0xe5116204, 0x1de2f6e3, 0x75026abe),
                 0x682e6ff3, 0xf3204226, 0x9cd75623, 0xba02d93c);
    hide Round;
  }

  lemma OUTER1_Run7()
    ensures RunHigh(OUTER1_V7, KW3, OUTER1_W3) == OUTER1_V8
  {
    assert Gives(Vars(0x9cd75623, 0xd97fbff0, 0x6385dcaf, 0x8777852f, 0xba02d93c, 0x537426f8, 0xe5116204, 0x1de2f6e3),
                 0x748f82ee, 0x72c57c4a, 0x15a68999, 0xb7d472e4);
    assert Gives(Vars(0x15a68999, 0x9cd75623, 0xd97fbff0, 0x6385dcaf, 0xb7d472e4, 0xba02d93c, 0x537426f8, 0xe5116204),
                 0x78a5636f, 0x29f17dc0, 0xcfb87b42, 0x01bf4d3c);
    assert Gives(Vars(0xcfb87b42, 0x15a68999, 0x9cd75623, 0xd97fbff0, 0x01bf4d3c, 0xb7d472e4, 0xba02d93c, 0x537426f8),
                 0x84c87814, 0x47bd2466, 0x897aaba3, 0x3d2ea863);
    assert Gives(Vars(0x897aaba3, 0xcfb87b42, 0x15a68999, 0x9cd75623, 0x3d2ea863, 0x01bf4d3c, 0xb7d472e4, 0xba02d93c),
                 0x8cc70208, 0x59ec5869, 0x2022d7d6, 0xd953135e);
    assert Gives(Vars(0x2022d7d6, 0x897aaba3, 0xcfb87b42, 0x15a68999, 0xd953135e, 0x3d2ea863, 0x01bf4d3c, 0xb7d472e4),
                 0x90befffa, 0xecef729b, 0x4f8ae343, 0x1e0f84b7);
    assert Gives(Vars(0x4f8ae343, 0x2022d7d6, 0x897aaba3, 0xcfb87b42, 0x1e0f84b7, 0xd953135e, 0x3d2ea863, 0x01bf4d3c),
                 0xa4506ceb, 0xeda51486, 0x05d248ec, 0xe9ea16b2);
    assert Gives(Vars(0x05d248ec, 0x4f8ae343, 0x2022d7d6, 0x897aaba3, 0xe9ea16b2, 0x1e0f84b7, 0xd953135e, 0x3d2ea863),
                 0xbef9a3f7, 0xed962388, 0xff8512d0, 0x7445edef);
    assert Gives(Vars(0xff8512d0, 0x05d248ec, 0x4f8ae343, 0x2022d7d6, 0x7445edef, 0xe9ea16b2, 0x1e0f84b7, 0xd953135e),
                 0xc67178f2, 0x4ec4a0ee, 0x884cd8c2, 0x9bbf7276);
    hide Round;
  }

  const OUTER1_OUT: seq<bv32> :=
    [0xb0344c61, 0xd8db3853, 0x5ca8afce, 0xaf0bf12b, 0x881dc200, 0xc9833da7, 0x26e9376c, 0x2e32cff7]

  lemma OUTER1_Compress(b: seq<byte>)
    requires |b| == 64 && Window(b, 0, OUTER1_W0)
    ensures Compress(OUTER0_OUT, b) == OUTER1_OUT
  {
    OUTER1_Next0();
    OUTER1_Next1();
    OUTER1_Next2();
    OUTER1_Run0();
    OUTER1_Run1();
    OUTER1_Run2();
    OUTER1_Run3();
    OUTER1_Run4();
    OUTER1_Run5();
    OUTER1_Run6();
    OUTER1_Run7();
    hide Next, RunLow, RunHigh, Window;
    assert VarsOf(OUTER0_OUT) == OUTER1_V0;
    CompressIs(OUTER0_OUT, b, OUTER1_W0, OUTER1_W1, OUTER1_W2, OUTER1_W3);
    OUTER1_Added();
  }

  lemma OUTER1_Added()
    ensures Added(OUTER0_OUT, OUTER1_V8) == OUTER1_OUT
  {
    var r := Added(OUTER0_OUT, OUTER1_V8);
    assert r[0] == OUTER1_OUT[0] && r[1] == OUTER1_OUT[1] && r[2] == OUTER1_OUT[2] && r[3] == OUTER1_OUT[3];
    assert r[4] == OUTER1_OUT[4] && r[5] == OUTER1_OUT[5] && r[6] == OUTER1_OUT[6] && r[7] == OUTER1_OUT[7];
  }

  /** Word i of the inner digest, as the next block reads it. */
  lemma INNER_Word(b: seq<byte>, i: nat, p: byte, q: byte, r: byte, s: byte, w: bv32)
    requires i < 8 && |b| == 64 && b[..32] == BytesOf(INNER1_OUT)
    requires Be32(INNER1_OUT[i]) == [p, q, r, s] && WordOf(p, q, r, s) == w
    ensures WordAt(b, i) == w
  {
    hide Be32, WordOf, BytesOf;
    BytesAt(INNER1_OUT, i, 0);
    BytesAt(INNER1_OUT, i, 1);
    BytesAt(INNER1_OUT, i, 2);
    BytesAt(INNER1_OUT, i, 3);
    assert b[..32][4 * i] == b[4 * i] && b[..32][4 * i + 1] == b[4 * i + 1];
    assert b[..32][4 * i + 2] == b[4 * i + 2] && b[..32][4 * i + 3] == b[4 * i + 3];
  }

  lemma OUTER1_Words0(b: seq<byte>)
    requires |b| == 64 && b[..32] == BytesOf(INNER1_OUT)
    ensures WordAt(b, 0) == 0x92ab4d9a && WordAt(b, 1) == 0x1f3b6152
    ensures WordAt(b, 2) == 0xbca9dd9e && WordAt(b, 3) == 0x69af43f4
  {
    hide WordAt, BytesOf;
    INNER_Word(b, 0, 0x92, 0xab, 0x4d, 0x9a, 0x92ab4d9a);
    INNER_Word(b, 1, 0x1f, 0x3b, 0x61, 0x52, 0x1f3b6152);
    INNER_Word(b, 2, 0xbc, 0xa9, 0xdd, 0x9e, 0xbca9dd9e);
    INNER_Word(b, 3, 0x69, 0xaf, 0x43, 0xf4, 0x69af43f4);
  }

  lemma OUTER1_Words4(b: seq<byte>)
    requires |b| == 64 && b[..32] == BytesOf(INNER1_OUT)
    ensures WordAt(b, 4) == 0xce99e42f && WordAt(b, 5) == 0xd4e30ff9
    ensures WordAt(b, 6) == 0x72c48025 && WordAt(b, 7) == 0xb9f9cfef
  {
    hide WordAt, BytesOf;
    INNER_Word(b, 4, 0xce, 0x99, 0xe4, 0x2f, 0xce99e42f);
    INNER_Word(b, 5, 0xd4, 0xe3, 0x0f, 0xf9, 0xd4e30ff9);
    INNER_Word(b, 6, 0x72, 0xc4, 0x80, 0x25, 0x72c48025);
    INNER_Word(b, 7, 0xb9, 0xf9, 0xcf, 0xef, 0xb9f9cfef);
  }

  lemma OUTER1_Ends(b: seq<byte>)
    requires |b| == 64 && b[32] == 0x80 && b[33] == b[34] == b[35] == 0
    requires b[60] == b[61] == 0 && b[62] == 3 && b[63] == 0
    ensures WordAt(b, 8) == 0x80000000 && WordAt(b, 15) == 0x00000300
  {
    hide WordAt;
    FourBytes(b, 8, 0x80, 0, 0, 0, 0x80000000);
    FourBytes(b, 15, 0, 0, 3, 0, 0x00000300);
  }

  lemma OUTER1_Zeros(b: seq<byte>)
    requires |b| == 64 && forall i :: 36 <= i < 60 ==> b[i] == 0
    ensures forall k :: 9 <= k < 15 ==> WordAt(b, k) == 0
  {
    hide WordAt;
    EvenWords(b, 9, 15, 0, 0);
  }

  lemma OUTER1_Tail()
    ensures Window(Tail(BytesOf(INNER1_OUT), 768), 0, OUTER1_W0)
  {
    hide Window, Be64, WordAt, WordOf, BytesOf;
    SmallLength(768);
    var b := Tail(BytesOf(INNER1_OUT), 768);
    assert b[..32] == BytesOf(INNER1_OUT);
    OUTER1_Words0(b);
    OUTER1_Words4(b);
    OUTER1_Ends(b);
    OUTER1_Zeros(b);
    WindowOf(b, OUTER1_W0);
  }

  /** Test case 1 of RFC 4231. */
  lemma MacOfHiThere()
    ensures Mac(KEY, TEXT)
            == BytesOf([0xb0344c61, 0xd8db3853, 0x5ca8afce, 0xaf0bf12b, 0x881dc200, 0xc9833da7, 0x26e9376c, 0x2e32cff7])
  {
    hide Compress, Tail, Digest, BytesOf, Window, Masked, BlockKey;
    InnerDigest();
    DigestLonger(Masked(BlockKey(KEY), OPAD), BytesOf(INNER1_OUT));
    OUTER0_Block();
    OUTER1_Tail();
    OUTER1_Compress(Tail(BytesOf(INNER1_OUT), 768));
  }
}
