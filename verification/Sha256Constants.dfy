/** The constants of SHA-256 are what sections 4.2.2 and 5.3.3 of FIPS 180-4 say: roots of the first primes. */
module Sha256Constants {
  import opened Common
  import opened Sha256

  const M32 := 0x1_0000_0000

  // ---- primes -------------------------------------------------------------

  const P0: seq<nat> := [2, 3, 5, 7, 11, 13, 17, 19]
  const P1: seq<nat> := [23, 29, 31, 37, 41, 43, 47, 53]
  const P2: seq<nat> := [59, 61, 67, 71, 73, 79, 83, 89]
  const P3: seq<nat> := [97, 101, 103, 107, 109, 113, 127, 131]
  const P4: seq<nat> := [137, 139, 149, 151, 157, 163, 167, 173]
  const P5: seq<nat> := [179, 181, 191, 193, 197, 199, 211, 223]
  const P6: seq<nat> := [227, 229, 233, 239, 241, 251, 257, 263]
  const P7: seq<nat> := [269, 271, 277, 281, 283, 293, 307, 311]

  const PRIMES: seq<nat> := P0 + P1 + P2 + P3 + P4 + P5 + P6 + P7

  ghost predicate IsPrime(p: nat)
  {
    p >= 2 && forall d :: 2 <= d < p ==> p % d != 0
  }

  /** A prime up to 17 divides n and is not n itself. */
  predicate SmallFactor(n: nat)
  {
    || (n > 2 && n % 2 == 0) || (n > 3 && n % 3 == 0) || (n > 5 && n % 5 == 0) || (n > 7 && n % 7 == 0)
    || (n > 11 && n % 11 == 0) || (n > 13 && n % 13 == 0) || (n > 17 && n % 17 == 0)
  }

  lemma {:induction false} LessOneProduct(r: nat, p: nat, q: nat)
    requires r < p
    ensures 0 <= r * q && r * q + q <= p * q
    decreases q
  {
    if q > 0 { LessOneProduct(r, p, q - 1); }
  }

  lemma RemainderIs(x: nat, p: nat, q: nat)
    requires p > 0 && x == p * q
    ensures x % p == 0
  {
    var q' := x / p;
    assert x == p * q' + x % p;
    if q < q' { LessOneProduct(q, q', p); }
    if q' < q { LessOneProduct(q', q, p); }
  }

  lemma MultipleOf(n: nat, f: nat, g: nat, p: nat)
    requires p > 0 && n == f * g && f % p == 0
    ensures n % p == 0
  {
    var k := f / p;
    assert f == p * k;
    assert n == p * (k * g);
    RemainderIs(n, p, k * g);
  }

  /** A divisor up to 17 leads to a prime one. */
  lemma SmallDivisor(n: nat, f: nat, g: nat)
    requires n == f * g && 2 <= f <= 17 && f < n
    ensures SmallFactor(n)
  {
    var p := if f % 2 == 0 then 2 else if f % 3 == 0 then 3 else if f % 5 == 0 then 5 else if f % 7 == 0 then 7 else f;
    assert p == 2 || p == 3 || p == 5 || p == 7 || p == 11 || p == 13 || p == 17;
    assert f % p == 0;
    MultipleOf(n, f, g, p);
  }

  lemma Cofactor(n: nat, d: nat, e: nat)
    requires n == d * e && 2 <= d < n < 324
    ensures 2 <= e < n && (d <= 17 || e <= 17) && n == e * d
  {
    if e >= n { LessOneProduct(1, d, e); }
    if d >= 18 && e >= 18 { LessOneProduct(17, d, e); }
  }

  lemma CompositeHasFactor(n: nat)
    requires 2 <= n < 324 && !IsPrime(n)
    ensures SmallFactor(n)
  {
    hide SmallFactor;
    var d :| 2 <= d < n && n % d == 0;
    var e := n / d;
    assert n == d * e;
    Cofactor(n, d, e);
    if d <= 17 { SmallDivisor(n, d, e); } else { SmallDivisor(n, e, d); }
  }

  /** Below 18 * 18 the small factors decide. */
  lemma PrimeIff(n: nat)
    requires 2 <= n < 324
    ensures IsPrime(n) <==> !SmallFactor(n)
  {
    if !IsPrime(n) { CompositeHasFactor(n); }
  }

  /** Every number strictly between a and b has a small factor. */
  predicate GapFactored(a: nat, b: nat)
    decreases b - a
  {
    a + 1 >= b || (SmallFactor(a + 1) && GapFactored(a + 1, b))
  }

  lemma {:induction false} GapHas(a: nat, b: nat, n: nat)
    requires a < n < b && GapFactored(a, b)
    ensures SmallFactor(n)
    decreases b - a
  {
    if n > a + 1 { GapHas(a + 1, b, n); }
  }

  /** p is prime, and q the next number without a small factor. */
  predicate Then(p: nat, q: nat)
  {
    2 <= p < q < 324 && !SmallFactor(p) && GapFactored(p, q)
  }

  /** The entries are primes one after another, and `next` comes after the last. */
  ghost predicate PrimeRun(ps: seq<nat>, next: nat)
  {
    forall j :: 0 <= j < |ps| ==> Then(ps[j], After(ps, next, j))
  }

  function After(ps: seq<nat>, next: nat, j: nat): nat
  {
    if j + 1 < |ps| then ps[j + 1] else next
  }

  lemma RunAppend(ps: seq<nat>, more: seq<nat>, next: nat)
    requires more != [] && PrimeRun(ps, more[0]) && PrimeRun(more, next)
    ensures PrimeRun(ps + more, next)
  {
    hide Then;
    var all := ps + more;
    forall j | 0 <= j < |all| ensures Then(all[j], After(all, next, j)) {
      if j < |ps| {
        assert Then(ps[j], After(ps, more[0], j));
      } else {
        assert Then(more[j - |ps|], After(more, next, j - |ps|));
      }
    }
  }

  lemma Gaps0()
    ensures Then(2, 3) && Then(3, 5) && Then(5, 7) && Then(7, 11)
    ensures Then(11, 13) && Then(13, 17) && Then(17, 19) && Then(19, 23)
  {
  }

  lemma Primes0()
    ensures PrimeRun(P0, 23)
  {
    hide Then;
    Gaps0();
    forall j | 0 <= j < |P0| ensures Then(P0[j], After(P0, 23, j)) {
      assert j == 0 || j == 1 || j == 2 || j == 3 || j == 4 || j == 5 || j == 6 || j == 7;
    }
  }

  lemma Gaps1()
    ensures Then(23, 29) && Then(29, 31) && Then(31, 37) && Then(37, 41)
    ensures Then(41, 43) && Then(43, 47) && Then(47, 53) && Then(53, 59)
  {
  }

  lemma Primes1()
    ensures PrimeRun(P1, 59)
  {
    hide Then;
    Gaps1();
    forall j | 0 <= j < |P1| ensures Then(P1[j], After(P1, 59, j)) {
      assert j == 0 || j == 1 || j == 2 || j == 3 || j == 4 || j == 5 || j == 6 || j == 7;
    }
  }

  lemma Gaps2()
    ensures Then(59, 61) && Then(61, 67) && Then(67, 71) && Then(71, 73)
    ensures Then(73, 79) && Then(79, 83) && Then(83, 89) && Then(89, 97)
  {
  }

  lemma Primes2()
    ensures PrimeRun(P2, 97)
  {
    hide Then;
    Gaps2();
    forall j | 0 <= j < |P2| ensures Then(P2[j], After(P2, 97, j)) {
      assert j == 0 || j == 1 || j == 2 || j == 3 || j == 4 || j == 5 || j == 6 || j == 7;
    }
  }

  lemma Gaps3()
    ensures Then(97, 101) && Then(101, 103) && Then(103, 107) && Then(107, 109)
    ensures Then(109, 113) && Then(113, 127) && Then(127, 131) && Then(131, 137)
  {
  }

  lemma Primes3()
    ensures PrimeRun(P3, 137)
  {
    hide Then;
    Gaps3();
    forall j | 0 <= j < |P3| ensures Then(P3[j], After(P3, 137, j)) {
      assert j == 0 || j == 1 || j == 2 || j == 3 || j == 4 || j == 5 || j == 6 || j == 7;
    }
  }

  lemma Gaps4()
    ensures Then(137, 139) && Then(139, 149) && Then(149, 151) && Then(151, 157)
    ensures Then(157, 163) && Then(163, 167) && Then(167, 173) && Then(173, 179)
  {
  }

  lemma Primes4()
    ensures PrimeRun(P4, 179)
  {
    hide Then;
    Gaps4();
    forall j | 0 <= j < |P4| ensures Then(P4[j], After(P4, 179, j)) {
      assert j == 0 || j == 1 || j == 2 || j == 3 || j == 4 || j == 5 || j == 6 || j == 7;
    }
  }

  lemma Gaps5()
    ensures Then(179, 181) && Then(181, 191) && Then(191, 193) && Then(193, 197)
    ensures Then(197, 199) && Then(199, 211) && Then(211, 223) && Then(223, 227)
  {
  }

  lemma Primes5()
    ensures PrimeRun(P5, 227)
  {
    hide Then;
    Gaps5();
    forall j | 0 <= j < |P5| ensures Then(P5[j], After(P5, 227, j)) {
      assert j == 0 || j == 1 || j == 2 || j == 3 || j == 4 || j == 5 || j == 6 || j == 7;
    }
  }

  lemma Gaps6()
    ensures Then(227, 229) && Then(229, 233) && Then(233, 239) && Then(239, 241)
    ensures Then(241, 251) && Then(251, 257) && Then(257, 263) && Then(263, 269)
  {
  }

  lemma Primes6()
    ensures PrimeRun(P6, 269)
  {
    hide Then;
    Gaps6();
    forall j | 0 <= j < |P6| ensures Then(P6[j], After(P6, 269, j)) {
      assert j == 0 || j == 1 || j == 2 || j == 3 || j == 4 || j == 5 || j == 6 || j == 7;
    }
  }

  lemma Gaps7()
    ensures Then(269, 271) && Then(271, 277) && Then(277, 281) && Then(281, 283)
    ensures Then(283, 293) && Then(293, 307) && Then(307, 311) && Then(311, 313)
  {
  }

  lemma Primes7()
    ensures PrimeRun(P7, 313)
  {
    hide Then;
    Gaps7();
    forall j | 0 <= j < |P7| ensures Then(P7[j], After(P7, 313, j)) {
      assert j == 0 || j == 1 || j == 2 || j == 3 || j == 4 || j == 5 || j == 6 || j == 7;
    }
  }

  lemma AllPrimes()
    ensures |PRIMES| == 64 && PRIMES[0] == 2 && PrimeRun(PRIMES, 313)
  {
    hide PrimeRun;
    Primes0();
    Primes1();
    Primes2();
    Primes3();
    Primes4();
    Primes5();
    Primes6();
    Primes7();
    RunAppend(P0, P1, 59);
    RunAppend(P0 + P1, P2, 97);
    RunAppend(P0 + P1 + P2, P3, 137);
    RunAppend(P0 + P1 + P2 + P3, P4, 179);
    RunAppend(P0 + P1 + P2 + P3 + P4, P5, 227);
    RunAppend(P0 + P1 + P2 + P3 + P4 + P5, P6, 269);
    RunAppend(P0 + P1 + P2 + P3 + P4 + P5 + P6, P7, 313);
  }

  /** Entry i of the table is prime number i: the entries are prime, rise from 2, and leave no prime out. */
  lemma PrimesInOrder(i: nat, n: nat)
    requires i < 64
    ensures |PRIMES| == 64 && PRIMES[0] == 2 && IsPrime(PRIMES[i])
    ensures i < 63 ==> PRIMES[i] < PRIMES[i + 1] && (PRIMES[i] < n < PRIMES[i + 1] ==> !IsPrime(n))
  {
    AllPrimes();
    hide SmallFactor, GapFactored, IsPrime;
    assert Then(PRIMES[i], After(PRIMES, 313, i));
    PrimeIff(PRIMES[i]);
    if i < 63 && PRIMES[i] < n < PRIMES[i + 1] {
      GapHas(PRIMES[i], PRIMES[i + 1], n);
      PrimeIff(n);
    }
  }

  // ---- roots --------------------------------------------------------------

  /** x is the cube root of p, cut after 32 binary places and read as a whole number. */
  predicate CubeRoot(p: nat, x: nat)
  {
    x * x * x <= p * M32 * M32 * M32 < (x + 1) * (x + 1) * (x + 1)
  }

  predicate SquareRoot(p: nat, x: nat)
  {
    x * x <= p * M32 * M32 < (x + 1) * (x + 1)
  }

  /** k is the first 32 bits of the fractional part of the cube root of p. */
  ghost predicate CubeFraction(p: nat, k: bv32)
  {
    exists q: nat :: CubeRoot(p, q * M32 + k as nat)
  }

  ghost predicate SquareFraction(p: nat, k: bv32)
  {
    exists q: nat :: SquareRoot(p, q * M32 + k as nat)
  }

  ghost predicate CubeFractions(ps: seq<nat>, ks: seq<bv32>)
  {
    |ps| == |ks| && forall j :: 0 <= j < |ks| ==> CubeFraction(ps[j], ks[j])
  }

  lemma CubesAppend(ps: seq<nat>, ks: seq<bv32>, ps': seq<nat>, ks': seq<bv32>)
    requires CubeFractions(ps, ks) && CubeFractions(ps', ks')
    ensures CubeFractions(ps + ps', ks + ks')
  {
    hide CubeFraction;
  }

  lemma Cube(p: nat, q: nat, k: bv32, x: nat)
    requires x == q * M32 + k as nat && CubeRoot(p, x)
    ensures CubeFraction(p, k)
  {
    hide CubeRoot;
    assert CubeRoot(p, q * M32 + k as nat);
  }

  lemma Square(p: nat, q: nat, k: bv32, x: nat)
    requires x == q * M32 + k as nat && SquareRoot(p, x)
    ensures SquareFraction(p, k)
  {
    hide SquareRoot;
    assert SquareRoot(p, q * M32 + k as nat);
  }

  lemma Cubes0()
    ensures CubeFractions(P0, K0)
  {
    Cube(2, 1, 0x428a2f98, 0x1428a2f98);
    Cube(3, 1, 0x71374491, 0x171374491);
    Cube(5, 1, 0xb5c0fbcf, 0x1b5c0fbcf);
    Cube(7, 1, 0xe9b5dba5, 0x1e9b5dba5);
    Cube(11, 2, 0x3956c25b, 0x23956c25b);
    Cube(13, 2, 0x59f111f1, 0x259f111f1);
    Cube(17, 2, 0x923f82a4, 0x2923f82a4);
    Cube(19, 2, 0xab1c5ed5, 0x2ab1c5ed5);
    hide CubeFraction;
    forall j | 0 <= j < |K0| ensures CubeFraction(P0[j], K0[j]) {
      assert j == 0 || j == 1 || j == 2 || j == 3 || j == 4 || j == 5 || j == 6 || j == 7;
    }
  }

  lemma Cubes1()
    ensures CubeFractions(P1, K1)
  {
    Cube(23, 2, 0xd807aa98, 0x2d807aa98);
    Cube(29, 3, 0x12835b01, 0x312835b01);
    Cube(31, 3, 0x243185be, 0x3243185be);
    Cube(37, 3, 0x550c7dc3, 0x3550c7dc3);
    Cube(41, 3, 0x72be5d74, 0x372be5d74);
    Cube(43, 3, 0x80deb1fe, 0x380deb1fe);
    Cube(47, 3, 0x9bdc06a7, 0x39bdc06a7);
    Cube(53, 3, 0xc19bf174, 0x3c19bf174);
    hide CubeFraction;
    forall j | 0 <= j < |K1| ensures CubeFraction(P1[j], K1[j]) {
      assert j == 0 || j == 1 || j == 2 || j == 3 || j == 4 || j == 5 || j == 6 || j == 7;
    }
  }

  lemma Cubes2()
    ensures CubeFractions(P2, K2)
  {
    Cube(59, 3, 0xe49b69c1, 0x3e49b69c1);
    Cube(61, 3, 0xefbe4786, 0x3efbe4786);
    Cube(67, 4, 0x0fc19dc6, 0x40fc19dc6);
    Cube(71, 4, 0x240ca1cc, 0x4240ca1cc);
    Cube(73, 4, 0x2de92c6f, 0x42de92c6f);
    Cube(79, 4, 0x4a7484aa, 0x44a7484aa);
    Cube(83, 4, 0x5cb0a9dc, 0x45cb0a9dc);
    Cube(89, 4, 0x76f988da, 0x476f988da);
    hide CubeFraction;
    forall j | 0 <= j < |K2| ensures CubeFraction(P2[j], K2[j]) {
      assert j == 0 || j == 1 || j == 2 || j == 3 || j == 4 || j == 5 || j == 6 || j == 7;
    }
  }

  lemma Cubes3()
    ensures CubeFractions(P3, K3)
  {
    Cube(97, 4, 0x983e5152, 0x4983e5152);
    Cube(101, 4, 0xa831c66d, 0x4a831c66d);
    Cube(103, 4, 0xb00327c8, 0x4b00327c8);
    Cube(107, 4, 0xbf597fc7, 0x4bf597fc7);
    Cube(109, 4, 0xc6e00bf3, 0x4c6e00bf3);
    Cube(113, 4, 0xd5a79147, 0x4d5a79147);
    Cube(127, 5, 0x06ca6351, 0x506ca6351);
    Cube(131, 5, 0x14292967, 0x514292967);
    hide CubeFraction;
    forall j | 0 <= j < |K3| ensures CubeFraction(P3[j], K3[j]) {
      assert j == 0 || j == 1 || j == 2 || j == 3 || j == 4 || j == 5 || j == 6 || j == 7;
    }
  }

  lemma Cubes4()
    ensures CubeFractions(P4, K4)
  {
    Cube(137, 5, 0x27b70a85, 0x527b70a85);
    Cube(139, 5, 0x2e1b2138, 0x52e1b2138);
    Cube(149, 5, 0x4d2c6dfc, 0x54d2c6dfc);
    Cube(151, 5, 0x53380d13, 0x553380d13);
    Cube(157, 5, 0x650a7354, 0x5650a7354);
    Cube(163, 5, 0x766a0abb, 0x5766a0abb);
    Cube(167, 5, 0x81c2c92e, 0x581c2c92e);
    Cube(173, 5, 0x92722c85, 0x592722c85);
    hide CubeFraction;
    forall j | 0 <= j < |K4| ensures CubeFraction(P4[j], K4[j]) {
      assert j == 0 || j == 1 || j == 2 || j == 3 || j == 4 || j == 5 || j == 6 || j == 7;
    }
  }

  lemma Cubes5()
    ensures CubeFractions(P5, K5)
  {
    Cube(179, 5, 0xa2bfe8a1, 0x5a2bfe8a1);
    Cube(181, 5, 0xa81a664b, 0x5a81a664b);
    Cube(191, 5, 0xc24b8b70, 0x5c24b8b70);
    Cube(193, 5, 0xc76c51a3, 0x5c76c51a3);
    Cube(197, 5, 0xd192e819, 0x5d192e819);
    Cube(199, 5, 0xd6990624, 0x5d6990624);
    Cube(211, 5, 0xf40e3585, 0x5f40e3585);
    Cube(223, 6, 0x106aa070, 0x6106aa070);
    hide CubeFraction;
    forall j | 0 <= j < |K5| ensures CubeFraction(P5[j], K5[j]) {
      assert j == 0 || j == 1 || j == 2 || j == 3 || j == 4 || j == 5 || j == 6 || j == 7;
    }
  }

  lemma Cubes6()
    ensures CubeFractions(P6, K6)
  {
    Cube(227, 6, 0x19a4c116, 0x619a4c116);
    Cube(229, 6, 0x1e376c08, 0x61e376c08);
    Cube(233, 6, 0x2748774c, 0x62748774c);
    Cube(239, 6, 0x34b0bcb5, 0x634b0bcb5);
    Cube(241, 6, 0x391c0cb3, 0x6391c0cb3);
    Cube(251, 6, 0x4ed8aa4a, 0x64ed8aa4a);
    Cube(257, 6, 0x5b9cca4f, 0x65b9cca4f);
    Cube(263, 6, 0x682e6ff3, 0x6682e6ff3);
    hide CubeFraction;
    forall j | 0 <= j < |K6| ensures CubeFraction(P6[j], K6[j]) {
      assert j == 0 || j == 1 || j == 2 || j == 3 || j == 4 || j == 5 || j == 6 || j == 7;
    }
  }

  lemma Cubes7()
    ensures CubeFractions(P7, K7)
  {
    Cube(269, 6, 0x748f82ee, 0x6748f82ee);
    Cube(271, 6, 0x78a5636f, 0x678a5636f);
    Cube(277, 6, 0x84c87814, 0x684c87814);
    Cube(281, 6, 0x8cc70208, 0x68cc70208);
    Cube(283, 6, 0x90befffa, 0x690befffa);
    Cube(293, 6, 0xa4506ceb, 0x6a4506ceb);
    Cube(307, 6, 0xbef9a3f7, 0x6bef9a3f7);
    Cube(311, 6, 0xc67178f2, 0x6c67178f2);
    hide CubeFraction;
    forall j | 0 <= j < |K7| ensures CubeFraction(P7[j], K7[j]) {
      assert j == 0 || j == 1 || j == 2 || j == 3 || j == 4 || j == 5 || j == 6 || j == 7;
    }
  }

  /** Section 4.2.2: round constant i comes from the cube root of prime i. */
  lemma ConstantsAreRoots(i: nat)
    requires i < 64
    ensures |PRIMES| == |K| == 64 && CubeFraction(PRIMES[i], K[i])
  {
    hide CubeFraction;
    AllCubes();
  }

  lemma AllCubes()
    ensures CubeFractions(PRIMES, K)
  {
    hide CubeFractions;
    Cubes0();
    Cubes1();
    Cubes2();
    Cubes3();
    Cubes4();
    Cubes5();
    Cubes6();
    Cubes7();
    CubesAppend(P0, K0, P1, K1);
    CubesAppend(P0 + P1, K0 + K1, P2, K2);
    CubesAppend(P0 + P1 + P2, K0 + K1 + K2, P3, K3);
    CubesAppend(P0 + P1 + P2 + P3, K0 + K1 + K2 + K3, P4, K4);
    CubesAppend(P0 + P1 + P2 + P3 + P4, K0 + K1 + K2 + K3 + K4, P5, K5);
    CubesAppend(P0 + P1 + P2 + P3 + P4 + P5, K0 + K1 + K2 + K3 + K4 + K5, P6, K6);
    CubesAppend(P0 + P1 + P2 + P3 + P4 + P5 + P6, K0 + K1 + K2 + K3 + K4 + K5 + K6, P7, K7);
  }

  /** Section 5.3.3: word i of the initial value comes from the square root of prime i. */
  lemma InitialValueIsRoots(i: nat)
    requires i < 8
    ensures SquareFraction(P0[i], IV[i])
  {
    Square(2, 1, 0x6a09e667, 0x16a09e667);
    Square(3, 1, 0xbb67ae85, 0x1bb67ae85);
    Square(5, 2, 0x3c6ef372, 0x23c6ef372);
    Square(7, 2, 0xa54ff53a, 0x2a54ff53a);
    Square(11, 3, 0x510e527f, 0x3510e527f);
    Square(13, 3, 0x9b05688c, 0x39b05688c);
    Square(17, 4, 0x1f83d9ab, 0x41f83d9ab);
    Square(19, 4, 0x5be0cd19, 0x45be0cd19);
    hide SquareFraction;
    assert i == 0 || i == 1 || i == 2 || i == 3 || i == 4 || i == 5 || i == 6 || i == 7;
  }
}
