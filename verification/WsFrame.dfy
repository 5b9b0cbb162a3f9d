/** WebSocket text frames: the encoder, the length reader, and the framing of sections 5.2 and 5.3 of RFC 6455. */
module WsFrame {
  import opened Common

  /** The 4-byte masking key of a client frame, or none for a server frame. */
  type Mask = m: Option<seq<byte>> | m.Some? ==> |m.value| == 4 witness None

  const TEXT_MAX := 65536

  function MaskBit(m: Mask): byte { if m.Some? then 128 else 0 }

  function LengthBytes(len: nat, m: Mask): (h: seq<byte>)
    requires len < TEXT_MAX
    ensures |h| == if len < 126 then 1 else 3
  {
    if len < 126 then [MaskBit(m) + len] else [MaskBit(m) + 126, len / 256, len % 256]
  }

  function Header(len: nat, m: Mask): (h: seq<byte>)
    requires len < TEXT_MAX
    ensures |h| == (if len < 126 then 2 else 4) + (if m.Some? then 4 else 0)
  {
    [0x81] + LengthBytes(len, m) + (if m.Some? then m.value else [])
  }

  /** Payload byte `i`, combined with the masking key. */
  function MaskedAt(text: Text, m: Mask, i: nat): byte
    requires i < |text|
  {
    match m
    case None => text[i]
    case Some(key) => Xor(text[i], key[i % 4])
  }

  function Masked(text: Text, m: Mask): (r: Text)
    ensures |r| == |text|
    ensures forall i :: 0 <= i < |text| ==> r[i] == MaskedAt(text, m, i)
  {
    seq(|text|, i requires 0 <= i < |text| => MaskedAt(text, m, i))
  }

  /** One whole text frame: FIN, opcode 1. */
  function Frame(text: Text, m: Mask): (f: seq<byte>)
    requires |text| < TEXT_MAX
    ensures |text| + 2 <= |f| <= |text| + 8
  {
    Header(|text|, m) + Masked(text, m)
  }

  lemma MaskedTwice(text: Text, m: Mask)
    ensures Masked(Masked(text, m), m) == text
  {
    forall i | 0 <= i < |text| ensures Masked(Masked(text, m), m)[i] == text[i] {
      hide Xor;
      if m.Some? { XorTwice(text[i], m.value[i % 4]); }
    }
  }

  /** Masking is exclusive or with the key's bytes in turn, bit by bit, as section 5.3 of RFC 6455 defines it. */
  lemma MaskedBit(text: Text, key: seq<byte>, i: nat, j: nat)
    requires |key| == 4 && i < |text| && j < 8
    ensures Bit(Masked(text, Some(key))[i], j) == (Bit(text[i], j) != Bit(key[i % 4], j))
  {
    XorBit(text[i], key[i % 4], 8, j);
  }

  lemma HelloByte0()
    ensures Xor(72, 0x37) == 0x7f
  {
    assert XorBits(4, 3, 4) == 7;
  }

  lemma HelloByte1()
    ensures Xor(101, 0xfa) == 0x9f
  {
    assert XorBits(6, 15, 4) == 9;
  }

  lemma HelloByte2()
    ensures Xor(108, 0x21) == 0x4d
  {
    assert XorBits(6, 2, 4) == 4;
  }

  lemma HelloByte3()
    ensures Xor(108, 0x3d) == 0x51
  {
    assert XorBits(6, 3, 4) == 5;
  }

  lemma HelloByte4()
    ensures Xor(111, 0x37) == 0x58
  {
    assert XorBits(6, 3, 4) == 5;
  }

  lemma HelloMasked()
    ensures Masked([72, 101, 108, 108, 111], Some([0x37, 0xfa, 0x21, 0x3d])) == [0x7f, 0x9f, 0x4d, 0x51, 0x58]
  {
    hide Xor;
    HelloByte0();
    HelloByte1();
    HelloByte2();
    HelloByte3();
    HelloByte4();
  }

  /** The masked frame that section 5.7 of RFC 6455 gives for "Hello". */
  lemma HelloFrame()
    ensures Frame([72, 101, 108, 108, 111], Some([0x37, 0xfa, 0x21, 0x3d]))
            == [0x81, 0x85, 0x37, 0xfa, 0x21, 0x3d, 0x7f, 0x9f, 0x4d, 0x51, 0x58]
  {
    HelloMasked();
    hide Masked;
  }

  // ---- the reference decoder ----------------------------------------------

  /** What section 5.2 of RFC 6455 makes of a byte stream: its first frame, or not enough bytes yet. */
  datatype Parsed = Incomplete | Parsed(fin: bool, opcode: nat, masked: bool, payload: Text, size: nat)

  /** Big-endian number. */
  function BigEndian(b: seq<byte>): nat
  {
    if b == [] then 0 else 256 * BigEndian(b[..|b| - 1]) + b[|b| - 1] as int
  }

  function Parse(b: seq<byte>): Parsed
  {
    if |b| < 2 then Incomplete
    else
      var short := b[1] as int % 128;
      var extra := if short == 126 then 2 else if short == 127 then 8 else 0;
      var masked := b[1] >= 128;
      var head := 2 + extra + (if masked then 4 else 0);
      if |b| < 2 + extra then Incomplete
      else
        var len := if extra == 0 then short else BigEndian(b[2..2 + extra]);
        if |b| < head + len then Incomplete
        else
          var key: Mask := if masked then Some(b[head - 4..head]) else None;
          Parsed(b[0] >= 128, b[0] as int % 16, masked, Masked(b[head..head + len], key), head + len)
  }

  lemma BigEndianTwo(hi: byte, lo: byte)
    ensures BigEndian([hi, lo]) == 256 * (hi as int) + lo as int
  {
    assert [hi, lo][..1] == [hi] && [hi][..0] == [];
    assert BigEndian([hi]) == hi as int;
  }

  /** The fixed bytes of a header, and the mask bit and short length in its second byte. */
  lemma HeaderBytes(len: nat, m: Mask)
    requires len < TEXT_MAX
    ensures var h := Header(len, m);
            && h[0] == 0x81 && (h[1] >= 128 <==> m.Some?)
            && h[1] as int % 128 == (if len < 126 then len else 126)
            && (len >= 126 ==> h[2] == len / 256 && h[3] == len % 256)
            && (m.Some? ==> h[|h| - 4..] == m.value)
  {
    var h := Header(len, m);
    assert h[1] == LengthBytes(len, m)[0];
    assert (128 + len) % 128 == len % 128;
  }

  lemma FrameParts(text: Text, m: Mask, rest: seq<byte>)
    requires |text| < TEXT_MAX
    ensures var b := Frame(text, m) + rest;
            var h := Header(|text|, m);
            && |b| >= |h| + |text| && b[..|h|] == h && b[|h|..|h| + |text|] == Masked(text, m)
            && (forall i :: 0 <= i < |h| ==> b[i] == h[i])
  {
  }

  /** The encoder writes what the standard reads: one final text frame, unmasked to the same text, nothing more. */
  lemma FrameParses(text: Text, m: Mask, rest: seq<byte>)
    requires |text| < TEXT_MAX
    ensures Parse(Frame(text, m) + rest) == Parsed(true, 1, m.Some?, text, |Frame(text, m)|)
  {
    hide Masked, LengthBytes;
    var b := Frame(text, m) + rest;
    var h := Header(|text|, m);
    FrameParts(text, m, rest);
    HeaderBytes(|text|, m);
    hide Header, Frame;
    if |text| >= 126 {
      assert b[2..4] == [h[2], h[3]];
      BigEndianTwo(h[2], h[3]);
    }
    if m.Some? { assert b[|h| - 4..|h|] == b[..|h|][|h| - 4..] == m.value; }
    MaskedTwice(text, m);
  }

  // ---- the sender's own length reader -------------------------------------

  /** frame_len_at for a frame at the start of `b`; needs the header to be there. */
  function FrameLen(b: seq<byte>): nat
    requires |b| >= 2 && (b[1] as int % 128 == 126 ==> |b| >= 4)
  {
    var short := b[1] as int % 128;
    var long := short == 126;
    (if long then 4 else 2) + (if b[1] >= 128 then 4 else 0)
    + (if long then 256 * (b[2] as int) + b[3] as int else short)
  }

  /** A frame whose own header gives its length. */
  ghost predicate WellFramed(f: seq<byte>)
  {
    |f| >= 2 && (f[1] as int % 128 == 126 ==> |f| >= 4) && FrameLen(f) == |f|
  }

  lemma FrameIsWellFramed(text: Text, m: Mask)
    requires |text| < TEXT_MAX
    ensures WellFramed(Frame(text, m))
  {
    hide Masked, LengthBytes;
    FrameParts(text, m, []);
    HeaderBytes(|text|, m);
    assert Frame(text, m) + [] == Frame(text, m);
  }

  // ---- in place -----------------------------------------------------------

  /** rnet_ws_frame_text: writes the frame into `out` at `at`, or nothing when it does not fit. */
  method WriteFrame(text: Text, m: Mask, out: array<byte>, at: nat) returns (n: int)
    requires at <= out.Length
    modifies out
    ensures out[..at] == old(out[..at])
    ensures n >= 0 <==> |text| < TEXT_MAX && at + |Header(|text|, m)| + |text| <= out.Length
    ensures n >= 0 ==> n == |Frame(text, m)| && out[at..at + n] == Frame(text, m)
    ensures n < 0 ==> out[..] == old(out[..])
  {
    hide Header, Masked;
    var len := |text|;
    if len >= TEXT_MAX { return -1; }
    var head := Header(len, m);
    if out.Length - at < |head| + len { return -1; }
    CopyTo(head, out, at);
    MaskInto(text, m, out, at + |head|);
    n := |head| + len;
    assert out[..at + n] == old(out[..at]) + Frame(text, m);
    assert out[at..at + n] == out[..at + n][at..];
    assert out[..at] == out[..at + n][..at];
  }

  /** The payload loop. */
  method MaskInto(text: Text, m: Mask, out: array<byte>, at: nat)
    requires at + |text| <= out.Length
    modifies out
    ensures out[..at + |text|] == old(out[..at]) + Masked(text, m)
  {
    hide MaskedAt, Masked;
    var i := 0;
    while i < |text|
      invariant 0 <= i <= |text|
      invariant out[..at + i] == old(out[..at]) + Masked(text, m)[..i]
    {
      out[at + i] := MaskedAt(text, m, i);
      i := i + 1;
      assert Masked(text, m)[..i] == Masked(text, m)[..i - 1] + [Masked(text, m)[i - 1]];
    }
    assert Masked(text, m)[..i] == Masked(text, m);
  }

  method CopyTo(src: seq<byte>, out: array<byte>, at: nat)
    requires at + |src| <= out.Length
    modifies out
    ensures out[..at + |src|] == old(out[..at]) + src
  {
    var i := 0;
    while i < |src|
      invariant 0 <= i <= |src|
      invariant out[..at + i] == old(out[..at]) + src[..i]
    {
      out[at + i] := src[i];
      i := i + 1;
    }
    assert src[..i] == src;
  }
}
