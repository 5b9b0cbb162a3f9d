/** Machine integers, bytes and small helpers shared by every component. */
module Common {

  type byte = x: int | 0 <= x < 256
  type u32 = x: int | 0 <= x < 0x1_0000_0000
  type int32 = x: int | -0x8000_0000 <= x < 0x8000_0000

  const U32_MAX: u32 := 0xFFFF_FFFF

  /** The characters of a C string, without its terminator. */
  type Text = seq<byte>

  datatype Option<+T> = None | Some(value: T)

  /** The pieces of a stream, one after another. */
  function Concat(fs: seq<seq<byte>>): seq<byte>
  {
    if fs == [] then [] else Concat(fs[..|fs| - 1]) + fs[|fs| - 1]
  }

  // ---- bitwise operations on the low n bits -------------------------------

  function Pow2(n: nat): (p: nat)
    ensures p >= 1
  {
    if n == 0 then 1 else 2 * Pow2(n - 1)
  }

  lemma Pow2Of32()
    ensures Pow2(32) == 0x1_0000_0000
  {
    assert Pow2(8) == 256;
    assert Pow2(16) == 65536;
    assert Pow2(24) == 16777216;
  }

  function XorBits(a: nat, b: nat, n: nat): (r: nat)
    ensures r < Pow2(n)
  {
    if n == 0 then 0 else (a + b) % 2 + 2 * XorBits(a / 2, b / 2, n - 1)
  }

  /** Bit `j` of a number, bit 0 being the lowest. */
  function Bit(x: nat, j: nat): bool
  {
    if j == 0 then x % 2 == 1 else Bit(x / 2, j - 1)
  }

  lemma XorHalves(a: nat, b: nat, y: nat)
    ensures var z := (a + b) % 2 + 2 * y; z / 2 == y && (z % 2 == 1 <==> (a % 2 == 1) != (b % 2 == 1))
  {
  }

  /** Exclusive or, bit by bit. */
  lemma {:induction false} XorBit(a: nat, b: nat, n: nat, j: nat)
    requires j < n
    ensures Bit(XorBits(a, b, n), j) == (Bit(a, j) != Bit(b, j))
  {
    XorHalves(a, b, XorBits(a / 2, b / 2, n - 1));
    if j > 0 { XorBit(a / 2, b / 2, n - 1, j - 1); }
  }

  lemma XorBitTwice(a: nat, b: nat, y: nat)
    ensures var z := (a + b) % 2 + 2 * y; z / 2 == y && (z + b) % 2 == a % 2
  {
  }

  lemma {:induction false} XorBitsTwice(a: nat, b: nat, n: nat)
    requires a < Pow2(n)
    ensures XorBits(XorBits(a, b, n), b, n) == a
  {
    if n > 0 {
      XorBitsTwice(a / 2, b / 2, n - 1);
      var y := XorBits(a / 2, b / 2, n - 1);
      var z := (a + b) % 2 + 2 * y;
      assert XorBits(a, b, n) == z;
      XorBitTwice(a, b, y);
      assert XorBits(z, b, n) == (z + b) % 2 + 2 * XorBits(y, b / 2, n - 1);
    }
  }

  function Xor(a: byte, b: byte): byte
  {
    assert Pow2(8) == 256;
    XorBits(a, b, 8)
  }

  lemma XorTwice(a: byte, b: byte)
    ensures Xor(Xor(a, b), b) == a
  {
    assert Pow2(8) == 256;
    XorBitsTwice(a, b, 8);
  }
}
