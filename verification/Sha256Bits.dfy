/** The word functions of SHA-256 bit by bit. */
module Sha256Bits {
  import opened Common
  import opened Sha256

  /** Bit `j` of a word, bit 0 being the lowest. */
  predicate Bit(x: bv32, j: bv32)
  {
    j < 32 && (x >> j) & 1 == 1
  }

  lemma AndBit(a: bv32, b: bv32, j: bv32)
    requires j < 32
    ensures Bit(And32(a, b), j) == (Bit(a, j) && Bit(b, j))
  {
  }

  lemma XorBit(a: bv32, b: bv32, j: bv32)
    requires j < 32
    ensures Bit(Xor32(a, b), j) == (Bit(a, j) != Bit(b, j))
  {
  }

  lemma NotBit(a: bv32, j: bv32)
    requires j < 32
    ensures Bit(Not32(a), j) == !Bit(a, j)
  {
  }

  lemma ShiftTwice(x: bv32, n: bv32, j: bv32)
    requires 0 < n < 32 && j < 32
    ensures (((x >> n) | (x << (32 - n))) >> j) & 1 == (x >> ((j + n) % 32)) & 1
  {
  }

  /** Rotation: bit j comes from bit j + n, counted round the 32 bits. */
  lemma RotrBit(x: bv32, n: bv32, j: bv32)
    requires 0 < n < 32 && j < 32
    ensures Bit(Rotr(x, n), j) == Bit(x, (j + n) % 32)
  {
    ShiftTwice(x, n, j);
  }

  lemma Shr3Bit(x: bv32, j: bv32)
    requires j < 32
    ensures Bit(Shr(x, 3), j) == Bit(x, j + 3)
  {
  }

  lemma Shr10Bit(x: bv32, j: bv32)
    requires j < 32
    ensures Bit(Shr(x, 10), j) == Bit(x, j + 10)
  {
  }

  /** Ch chooses: y where x has a 1, z where it has a 0. */
  lemma ChBit(x: bv32, y: bv32, z: bv32, j: bv32)
    requires j < 32
    ensures Bit(Ch(x, y, z), j) == if Bit(x, j) then Bit(y, j) else Bit(z, j)
  {
    hide Bit, And32, Xor32, Not32, Rotr, Shr;
    NotBit(x, j);
    AndBit(x, y, j);
    AndBit(Not32(x), z, j);
    XorBit(And32(x, y), And32(Not32(x), z), j);
  }

  /** Maj votes: the bit that at least two of the three have. */
  lemma MajBit(x: bv32, y: bv32, z: bv32, j: bv32)
    requires j < 32
    ensures Bit(Maj(x, y, z), j)
            <==> (Bit(x, j) && Bit(y, j)) || (Bit(x, j) && Bit(z, j)) || (Bit(y, j) && Bit(z, j))
  {
    hide Bit, And32, Xor32, Not32, Rotr, Shr;
    AndBit(x, y, j);
    AndBit(x, z, j);
    AndBit(y, z, j);
    Xor3Bit(And32(x, y), And32(x, z), And32(y, z), j);
  }

  /** An odd number of the three is set. */
  predicate Parity(p: bool, q: bool, r: bool) { (p != q) != r }

  lemma Xor3Bit(a: bv32, b: bv32, c: bv32, j: bv32)
    requires j < 32
    ensures Bit(Xor32(Xor32(a, b), c), j) == Parity(Bit(a, j), Bit(b, j), Bit(c, j))
  {
    hide Bit, Xor32;
    XorBit(a, b, j);
    XorBit(Xor32(a, b), c, j);
  }

  lemma BigSigma0Bit(x: bv32, j: bv32)
    requires j < 32
    ensures Bit(BigSigma0(x), j) == Parity(Bit(x, (j + 2) % 32), Bit(x, (j + 13) % 32), Bit(x, (j + 22) % 32))
  {
    hide Bit, And32, Xor32, Not32, Rotr, Shr;
    RotrBit(x, 2, j);
    RotrBit(x, 13, j);
    RotrBit(x, 22, j);
    Xor3Bit(Rotr(x, 2), Rotr(x, 13), Rotr(x, 22), j);
  }

  lemma BigSigma1Bit(x: bv32, j: bv32)
    requires j < 32
    ensures Bit(BigSigma1(x), j) == Parity(Bit(x, (j + 6) % 32), Bit(x, (j + 11) % 32), Bit(x, (j + 25) % 32))
  {
    hide Bit, And32, Xor32, Not32, Rotr, Shr;
    RotrBit(x, 6, j);
    RotrBit(x, 11, j);
    RotrBit(x, 25, j);
    Xor3Bit(Rotr(x, 6), Rotr(x, 11), Rotr(x, 25), j);
  }

  lemma SmallSigma0Bit(x: bv32, j: bv32)
    requires j < 32
    ensures Bit(SmallSigma0(x), j) == Parity(Bit(x, (j + 7) % 32), Bit(x, (j + 18) % 32), Bit(x, j + 3))
  {
    hide Bit, And32, Xor32, Not32, Rotr, Shr;
    RotrBit(x, 7, j);
    RotrBit(x, 18, j);
    Shr3Bit(x, j);
    Xor3Bit(Rotr(x, 7), Rotr(x, 18), Shr(x, 3), j);
  }

  lemma SmallSigma1Bit(x: bv32, j: bv32)
    requires j < 32
    ensures Bit(SmallSigma1(x), j) == Parity(Bit(x, (j + 17) % 32), Bit(x, (j + 19) % 32), Bit(x, j + 10))
  {
    hide Bit, And32, Xor32, Not32, Rotr, Shr;
    RotrBit(x, 17, j);
    RotrBit(x, 19, j);
    Shr10Bit(x, j);
    Xor3Bit(Rotr(x, 17), Rotr(x, 19), Shr(x, 10), j);
  }
}
