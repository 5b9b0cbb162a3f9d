/** The wire form of a roster: length-prefixed printable strings and little-endian numbers. */
module LanRoomCodec {
  import opened Common
  import opened LanRoom

  const PKT_MAX := 2048
  const HEADER := 36

  // ---- numbers ------------------------------------------------------------

  function Le32(v: u32): (b: seq<byte>)
    ensures |b| == 4
  {
    [v % 256, v / 256 % 256, v / 256 / 256 % 256, v / 256 / 256 / 256]
  }

  function FromLe32(b: seq<byte>): u32
    requires |b| == 4
  {
    b[0] as int + 256 * (b[1] as int + 256 * (b[2] as int + 256 * (b[3] as int)))
  }

  lemma Le32RoundTrip(v: u32)
    ensures FromLe32(Le32(v)) == v
  {
    var v1 := v / 256;
    var v2 := v1 / 256;
    assert v == v % 256 + 256 * v1 && v1 == v1 % 256 + 256 * v2 && v2 == v2 % 256 + 256 * (v2 / 256);
  }

  /** The casts between int and rnet_u32. */
  function ToWire(x: int32): u32
  {
    if x < 0 then x + 0x1_0000_0000 else x
  }

  function FromWire(v: u32): int32
  {
    if v >= 0x8000_0000 then v - 0x1_0000_0000 else v
  }

  // ---- the ready mask -----------------------------------------------------

  /** The bits k..31 of a mask as a number, bit k first. */
  function MaskFrom(s: set<nat>, k: nat): (v: nat)
    requires k <= 32
    ensures v < Pow2(32 - k)
    decreases 32 - k
  {
    if k == 32 then 0 else (if k in s then 1 else 0) + 2 * MaskFrom(s, k + 1)
  }

  function BitsFrom(v: nat, k: nat): (s: set<nat>)
    requires k <= 32
    ensures forall i :: i in s ==> k <= i < 32
    decreases 32 - k
  {
    if k == 32 then {} else (if v % 2 == 1 then {k} else {}) + BitsFrom(v / 2, k + 1)
  }

  function Mask(s: set<nat>): u32
  {
    Pow2Of32();
    MaskFrom(s, 0)
  }

  lemma {:induction false} MaskRoundTripFrom(s: set<nat>, k: nat)
    requires k <= 32 && forall i :: i in s ==> i < 32
    ensures BitsFrom(MaskFrom(s, k), k) == set i | i in s && i >= k
    decreases 32 - k
  {
    if k < 32 {
      MaskRoundTripFrom(s, k + 1);
      assert MaskFrom(s, k) / 2 == MaskFrom(s, k + 1);
    }
  }

  lemma MaskRoundTrip(s: set<nat>)
    requires forall i :: i in s ==> i < 32
    ensures BitsFrom(Mask(s), 0) == s
  {
    MaskRoundTripFrom(s, 0);
  }

  // ---- fields -------------------------------------------------------------

  /** One item of a packet and the kind its reader expects. */
  datatype Field = Num(v: u32) | Str(t: Text)
  datatype Kind = KNum | KStr(cap: nat)

  function EncodeField(f: Field): seq<byte>
  {
    match f
    case Num(v) => Le32(v)
    case Str(t) => (if |t| <= U32_MAX then Le32(|t|) else [0, 0, 0, 0]) + t
  }

  function EncodeFields(fs: seq<Field>): seq<byte>
  {
    if fs == [] then [] else EncodeFields(fs[..|fs| - 1]) + EncodeField(fs[|fs| - 1])
  }

  /** The text fits its array and is printable. */
  predicate Fits(f: Field, k: Kind)
  {
    match k
    case KNum => f.Num?
    case KStr(cap) => f.Str? && |f.t| < cap <= PKT_MAX && Printable(f.t)
  }

  /** A reading position; once invalid it stays invalid and stops advancing. */
  datatype Cursor = Cursor(at: nat, valid: bool)

  datatype Read = Read(field: Field, next: Cursor)

  function ReadNumber(b: seq<byte>, c: Cursor): (r: Read)
    ensures r.field.Num?
  {
    if !c.valid || c.at + 4 > |b| then Read(Num(0), c.(valid := false))
    else Read(Num(FromLe32(b[c.at..c.at + 4])), c.(at := c.at + 4))
  }

  function ReadText(b: seq<byte>, c: Cursor, cap: nat): Read
  {
    var n := ReadNumber(b, c);
    if !n.next.valid || n.field.v >= cap || n.field.v > |b| - n.next.at then Read(Str([]), n.next.(valid := false))
    else
      var t := b[n.next.at..n.next.at + n.field.v];
      if !Printable(t) then Read(Str([]), n.next.(valid := false))
          else Read(Str(t), n.next.(at := n.next.at + n.field.v))
  }

  function ReadField(b: seq<byte>, c: Cursor, k: Kind): Read
  {
    match k case KNum => ReadNumber(b, c) case KStr(cap) => ReadText(b, c, cap)
  }

  datatype ReadAll = ReadAll(fields: seq<Field>, next: Cursor)

  function ReadFields(b: seq<byte>, c: Cursor, ks: seq<Kind>): (r: ReadAll)
    ensures |r.fields| == |ks|
  {
    if ks == [] then ReadAll([], c)
    else
      var p := ReadFields(b, c, ks[..|ks| - 1]);
      var r := ReadField(b, p.next, ks[|ks| - 1]);
      ReadAll(p.fields + [r.field], r.next)
  }

  /** `chunk` stands in `b` at `at`. */
  ghost predicate Stands(b: seq<byte>, at: nat, chunk: seq<byte>)
  {
    at + |chunk| <= |b| && b[at..at + |chunk|] == chunk
  }

  lemma StandsSplit(b: seq<byte>, at: nat, x: seq<byte>, y: seq<byte>)
    requires Stands(b, at, x + y)
    ensures Stands(b, at, x) && Stands(b, at + |x|, y)
  {
    assert b[at..at + |x|] == (b[at..at + |x| + |y|])[..|x|];
    assert b[at + |x|..at + |x| + |y|] == (b[at..at + |x| + |y|])[|x|..];
  }

  lemma FieldRoundTrip(b: seq<byte>, at: nat, f: Field, k: Kind)
    requires Fits(f, k) && Stands(b, at, EncodeField(f))
    ensures ReadField(b, Cursor(at, true), k) == Read(f, Cursor(at + |EncodeField(f)|, true))
  {
    match f
    case Num(v) => Le32RoundTrip(v);
    case Str(t) =>
      StandsSplit(b, at, Le32(|t|), t);
      Le32RoundTrip(|t|);
  }

  /** Reading the encoding of a list of fields gives the list back and stops exactly at its end. */
  lemma {:induction false} FieldsRoundTrip(b: seq<byte>, at: nat, fs: seq<Field>, ks: seq<Kind>)
    requires |fs| == |ks| && (forall i :: 0 <= i < |fs| ==> Fits(fs[i], ks[i])) && Stands(b, at, EncodeFields(fs))
    ensures ReadFields(b, Cursor(at, true), ks) == ReadAll(fs, Cursor(at + |EncodeFields(fs)|, true))
  {
    hide ReadField, EncodeField, Fits, Stands;
    if fs != [] {
      var n := |fs| - 1;
      StandsSplit(b, at, EncodeFields(fs[..n]), EncodeField(fs[n]));
      FieldsRoundTrip(b, at, fs[..n], ks[..n]);
      FieldRoundTrip(b, at + |EncodeFields(fs[..n])|, fs[n], ks[n]);
    }
  }

  /** The kind matches and a text is short enough, but it may hold characters a reader refuses. */
  predicate FitsUnchecked(f: Field, k: Kind)
  {
    match k
    case KNum => f.Num?
    case KStr(cap) => f.Str? && |f.t| < cap <= PKT_MAX
  }

  lemma FieldReadIff(b: seq<byte>, at: nat, f: Field, k: Kind)
    requires FitsUnchecked(f, k) && Stands(b, at, EncodeField(f))
    ensures ReadField(b, Cursor(at, true), k).next.valid <==> Fits(f, k)
  {
    if Fits(f, k) { FieldRoundTrip(b, at, f, k); }
    else {
      StandsSplit(b, at, Le32(|f.t|), f.t);
      Le32RoundTrip(|f.t|);
    }
  }

  lemma InvalidStays(b: seq<byte>, c: Cursor, k: Kind)
    requires !c.valid
    ensures !ReadField(b, c, k).next.valid
  {
  }

  predicate AllFitUnchecked(fs: seq<Field>, ks: seq<Kind>)
    requires |fs| == |ks|
  {
    forall i :: 0 <= i < |fs| ==> FitsUnchecked(fs[i], ks[i])
  }

  predicate AllFit(fs: seq<Field>, ks: seq<Kind>)
    requires |fs| == |ks|
  {
    forall i :: 0 <= i < |fs| ==> Fits(fs[i], ks[i])
  }

  /** A reader accepts what a writer wrote exactly when every text is printable. */
  lemma {:induction false} FieldsReadIff(b: seq<byte>, at: nat, fs: seq<Field>, ks: seq<Kind>)
    requires |fs| == |ks| && AllFitUnchecked(fs, ks) && Stands(b, at, EncodeFields(fs))
    ensures ReadFields(b, Cursor(at, true), ks).next.valid <==> AllFit(fs, ks)
  {
    hide EncodeField, Fits, FitsUnchecked, ReadField;
    if fs != [] {
      var n := |fs| - 1;
      StandsSplit(b, at, EncodeFields(fs[..n]), EncodeField(fs[n]));
      FieldsReadIff(b, at, fs[..n], ks[..n]);
      if AllFit(fs[..n], ks[..n]) {
        FieldsRoundTrip(b, at, fs[..n], ks[..n]);
        FieldReadIff(b, at + |EncodeFields(fs[..n])|, fs[n], ks[n]);
        assert AllFit(fs, ks) <==> Fits(fs[n], ks[n]);
      } else {
        var i :| 0 <= i < n && !Fits(fs[..n][i], ks[..n][i]);
        assert !Fits(fs[i], ks[i]);
        InvalidStays(b, ReadFields(b, Cursor(at, true), ks[..n]).next, ks[n]);
      }
    }
  }

  // ---- the roster ---------------------------------------------------------

  function RoomFields(r: Room): (fs: seq<Field>)
    requires |r.members| == SEATS
    ensures |fs| == 23
  {
    var m := r.members;
    [Str(r.name), Str(r.game), Str(r.version), Str(r.endpoint), Str(r.caps.mods),
     Num(ToWire(r.maxSlots)), Num(ToWire(r.hostSlot)), Num(Mask(r.ready)), Num(r.configuration), Num(r.session),
     Num(ToWire(r.caps.delay)), Num(ToWire(r.caps.rollback)), Num(ToWire(r.caps.prediction)),
     Num(ToWire(r.caps.variant)), Num(ToWire(r.starting)),
     Num(m[0].id), Str(m[0].name), Num(m[1].id), Str(m[1].name),
     Num(m[2].id), Str(m[2].name), Num(m[3].id), Str(m[3].name)]
  }

  const ROOM_KINDS: seq<Kind> :=
    [KStr(96), KStr(64), KStr(32), KStr(64), KStr(512),
     KNum, KNum, KNum, KNum, KNum, KNum, KNum, KNum, KNum, KNum,
     KNum, KStr(64), KNum, KStr(64), KNum, KStr(64), KNum, KStr(64)]

  function NumOf(f: Field): u32 { if f.Num? then f.v else 0 }
  function TextOf(f: Field): Text { if f.Str? then f.t else [] }

  /** The roster in a packet whose header carries this epoch and revision. */
  function RoomOf(fs: seq<Field>, epoch: u32, revision: u32): Room
    requires |fs| == 23
  {
    Room(TextOf(fs[0]), TextOf(fs[1]), TextOf(fs[2]), TextOf(fs[3]),
         Caps(FromWire(NumOf(fs[10])), FromWire(NumOf(fs[11])), FromWire(NumOf(fs[12])), FromWire(NumOf(fs[13])),
              TextOf(fs[4])),
         epoch, revision, NumOf(fs[8]), NumOf(fs[9]), BitsFrom(NumOf(fs[7]), 0),
         FromWire(NumOf(fs[5])), FromWire(NumOf(fs[6])), FromWire(NumOf(fs[14])),
         [Member(NumOf(fs[15]), TextOf(fs[16])), Member(NumOf(fs[17]), TextOf(fs[18])),
          Member(NumOf(fs[19]), TextOf(fs[20])), Member(NumOf(fs[21]), TextOf(fs[22]))])
  }

  /** Every text is printable. */
  ghost predicate TextsPrintable(r: Room)
  {
    && Printable(r.name) && Printable(r.game) && Printable(r.version) && Printable(r.endpoint) && Printable(r.caps.mods)
    && forall i :: 0 <= i < |r.members| ==> Printable(r.members[i].name)
  }

  /** Every text is printable and fits its array; the mask has 32 bits. */
  ghost predicate Encodable(r: Room)
  {
    |r.members| == SEATS && (forall i :: i in r.ready ==> i < 32) && TextsFit(r) && TextsPrintable(r)
  }

  /** Whether the fields fit is whether the texts do. */
  lemma FieldsFitIff(r: Room)
    requires |r.members| == SEATS
    ensures AllFitUnchecked(RoomFields(r), ROOM_KINDS) <==> TextsFit(r)
  {
    hide Mask;
    var fs := RoomFields(r);
    if AllFitUnchecked(fs, ROOM_KINDS) {
      assert FitsUnchecked(fs[0], ROOM_KINDS[0]) && FitsUnchecked(fs[1], ROOM_KINDS[1])
             && FitsUnchecked(fs[2], ROOM_KINDS[2]);
      assert FitsUnchecked(fs[3], ROOM_KINDS[3]) && FitsUnchecked(fs[4], ROOM_KINDS[4])
             && FitsUnchecked(fs[16], ROOM_KINDS[16]);
      assert FitsUnchecked(fs[18], ROOM_KINDS[18]) && FitsUnchecked(fs[20], ROOM_KINDS[20])
             && FitsUnchecked(fs[22], ROOM_KINDS[22]);
    }
  }

  /** ... and then a reader accepts them if and only if they are printable. */
  lemma FieldsPrintableIff(r: Room)
    requires |r.members| == SEATS && TextsFit(r)
    ensures AllFit(RoomFields(r), ROOM_KINDS) <==> TextsPrintable(r)
  {
    hide Mask, Printable;
    var fs := RoomFields(r);
    if AllFit(fs, ROOM_KINDS) {
      assert Fits(fs[0], ROOM_KINDS[0]) && Fits(fs[1], ROOM_KINDS[1]) && Fits(fs[2], ROOM_KINDS[2]);
      assert Fits(fs[3], ROOM_KINDS[3]) && Fits(fs[4], ROOM_KINDS[4]) && Fits(fs[16], ROOM_KINDS[16]);
      assert Fits(fs[18], ROOM_KINDS[18]) && Fits(fs[20], ROOM_KINDS[20]) && Fits(fs[22], ROOM_KINDS[22]);
    }
  }

  lemma RoomOfFields(r: Room)
    requires Encodable(r)
    ensures RoomOf(RoomFields(r), r.epoch, r.revision) == r
  {
    hide Mask, BitsFrom, Printable;
    MaskRoundTrip(r.ready);
    var r' := RoomOf(RoomFields(r), r.epoch, r.revision);
    assert r'.members == r.members;
    assert r'.caps == r.caps;
  }

  /** read_room undoes write_room, wherever the roster stands in the packet, and stops exactly at its end. */
  lemma RoomRoundTrip(r: Room, before: seq<byte>, after: seq<byte>)
    requires Encodable(r)
    ensures var b := before + EncodeFields(RoomFields(r)) + after;
            var got := ReadFields(b, Cursor(|before|, true), ROOM_KINDS);
            && got.next == Cursor(|before| + |EncodeFields(RoomFields(r))|, true)
            && RoomOf(got.fields, r.epoch, r.revision) == r
  {
    var fs := RoomFields(r);
    var b := before + EncodeFields(fs) + after;
    assert Stands(b, |before|, EncodeFields(fs));
    FieldsPrintableIff(r);
    FieldsRoundTrip(b, |before|, fs, ROOM_KINDS);
    RoomOfFields(r);
  }

  // ---- the size -----------------------------------------------------------

  function MaxBytes(k: Kind): nat
  {
    match k case KNum => 4 case KStr(cap) => if cap == 0 then 4 else 4 + cap - 1
  }

  /** The most bytes the first `n` fields of these kinds take. */
  function MaxBytesAll(ks: seq<Kind>, n: nat): nat
    requires n <= |ks|
    decreases n
  {
    if n == 0 then 0 else MaxBytesAll(ks, n - 1) + MaxBytes(ks[n - 1])
  }

  lemma {:induction false} SizeBound(fs: seq<Field>, ks: seq<Kind>, n: nat)
    requires n <= |fs| == |ks| && AllFitUnchecked(fs, ks)
    ensures |EncodeFields(fs[..n])| <= MaxBytesAll(ks, n)
  {
    hide FitsUnchecked, EncodeField, MaxBytes;
    if n > 0 {
      SizeBound(fs, ks, n - 1);
      assert fs[..n][..n - 1] == fs[..n - 1];
      FieldSize(fs[n - 1], ks[n - 1]);
    }
  }

  lemma WholeSizeBound(fs: seq<Field>, ks: seq<Kind>)
    requires |fs| == |ks| && AllFitUnchecked(fs, ks)
    ensures |EncodeFields(fs)| <= MaxBytesAll(ks, |ks|)
  {
    SizeBound(fs, ks, |ks|);
    assert fs[..|ks|] == fs;
  }

  lemma FieldSize(f: Field, k: Kind)
    requires FitsUnchecked(f, k)
    ensures |EncodeField(f)| <= MaxBytes(k)
  {
  }

  /** Where the sum of the field sizes is cut in two. */
  const HALF_FIELDS: nat := 11

  lemma FirstKindsSize()
    ensures MaxBytesAll(ROOM_KINDS, HALF_FIELDS) == 807
  {
    assert MaxBytesAll(ROOM_KINDS, 3) == 201;
    assert MaxBytesAll(ROOM_KINDS, 5) == 783;
    assert MaxBytesAll(ROOM_KINDS, 8) == 795;
  }

  lemma RoomKindsSize()
    ensures MaxBytesAll(ROOM_KINDS, HALF_FIELDS + 12) == 1143 - HEADER
  {
    FirstKindsSize();
    assert MaxBytesAll(ROOM_KINDS, HALF_FIELDS + 2) == 815;
    assert MaxBytesAll(ROOM_KINDS, HALF_FIELDS + 4) == 823;
    assert MaxBytesAll(ROOM_KINDS, HALF_FIELDS + 6) == 894;
    assert MaxBytesAll(ROOM_KINDS, HALF_FIELDS + 8) == 965;
    assert MaxBytesAll(ROOM_KINDS, HALF_FIELDS + 10) == 1036;
  }

  /** A state packet, header included, takes at most 1143 of the 2048 bytes, so its writer never goes invalid. */
  lemma RoomFitsPacket(r: Room)
    requires |r.members| == SEATS && TextsFit(r)
    ensures HEADER + |EncodeFields(RoomFields(r))| <= 1143 < PKT_MAX
  {
    FieldsFitIff(r);
    hide RoomFields, EncodeFields, AllFitUnchecked, TextsFit, MaxBytesAll;
    WholeSizeBound(RoomFields(r), ROOM_KINDS);
    RoomKindsSize();
  }

  // ---- the packet buffer --------------------------------------------------

  /** A packet being written or read: its bytes, how far the cursor is, where it ends, and whether all went well. */
  class Buffer {
    const bytes: array<byte>
    var at: nat
    var end: nat
    var valid: bool

    ghost predicate Ok()
      reads this
    {
      at <= end <= bytes.Length
    }

    ghost function Written(): seq<byte>
      requires Ok()
      reads this, bytes
    {
      bytes[..at]
    }

    /** The bytes a reader sees. */
    ghost function Packet(): seq<byte>
      requires Ok()
      reads this, bytes
    {
      bytes[..end]
    }

    constructor (capacity: nat)
      ensures Ok() && fresh(bytes) && bytes.Length == end == capacity && at == 0 && valid && Written() == []
    {
      bytes := new byte[capacity](_ => 0);
      at, end, valid := 0, capacity, true;
    }

    /** number(): four bytes, or the buffer goes invalid and keeps its contents. */
    method PutNumber(v: u32)
      requires Ok()
      modifies this, bytes
      ensures Ok() && end == old(end)
      ensures valid <==> old(valid) && old(at) + 4 <= end
      ensures Written() == old(Written()) + if valid then Le32(v) else []
    {
      if !valid || at + 4 > end { valid := false; return; }
      bytes[at], bytes[at + 1], bytes[at + 2], bytes[at + 3] := v % 256, (v / 256) % 256, (v / 65536) % 256,
          v / 16777216;
      at := at + 4;
      assert Written() == old(Written()) + Le32(v);
    }

    /** memcpy of a string body. */
    method PutBytes(t: Text)
      requires Ok() && at + |t| <= end
      modifies this, bytes
      ensures Ok() && end == old(end) && valid == old(valid)
      ensures Written() == old(Written()) + t
    {
      var i := 0;
      while i < |t|
        invariant 0 <= i <= |t| && at == old(at) && end == old(end) && valid == old(valid)
        invariant bytes[..at + i] == old(bytes[..at]) + t[..i]
      {
        bytes[at + i] := t[i];
        i := i + 1;
      }
      assert t[..i] == t;
      at := at + |t|;
    }

    /** string(): the length, then the characters; a text that does not end inside its array invalidates. */
    method PutString(t: Text, cap: nat)
      requires Ok() && cap <= PKT_MAX
      modifies this, bytes
      ensures Ok() && end == old(end)
      ensures valid <==> old(valid) && |t| < cap && old(at) + 4 + |t| <= end
      ensures valid ==> Written() == old(Written()) + EncodeField(Str(t))
      ensures old(Written()) <= Written()
    {
      if |t| >= cap { valid := false; return; }
      PutNumber(|t|);
      if !valid || at + |t| > end { valid := false; return; }
      PutBytes(t);
    }

    method PutField(f: Field, k: Kind)
      requires Ok() && OfKind(f, k)
      modifies this, bytes
      ensures Ok() && end == old(end)
      ensures valid <==> old(valid) && FitsUnchecked(f, k) && old(at) + |EncodeField(f)| <= end
      ensures valid ==> Written() == old(Written()) + EncodeField(f)
      ensures old(Written()) <= Written()
    {
      match f
      case Num(v) => PutNumber(v);
      case Str(t) => PutString(t, k.cap);
    }

    method PutFields(fs: seq<Field>, ks: seq<Kind>)
      requires Ok() && |fs| == |ks| && forall i :: 0 <= i < |fs| ==> OfKind(fs[i], ks[i])
      modifies this, bytes
      ensures Ok() && end == old(end)
      ensures valid <==> old(valid) && AllFitUnchecked(fs, ks) && old(at) + |EncodeFields(fs)| <= end
      ensures valid ==> Written() == old(Written()) + EncodeFields(fs)
      ensures old(Written()) <= Written()
    {
      hide EncodeField, EncodeFields, FitsUnchecked, AllFitUnchecked, OfKind;
      FieldsNone(fs, ks);
      var i := 0;
      while i < |fs|
        invariant 0 <= i <= |fs| && Ok() && end == old(end) && old(Written()) <= Written()
        invariant valid <==> old(valid) && AllFitUnchecked(fs[..i], ks[..i]) && old(at) + |EncodeFields(fs[..i])| <= end
        invariant valid ==> Written() == old(Written()) + EncodeFields(fs[..i])
      {
        FieldsNext(fs, ks, i);
        PutField(fs[i], ks[i]);
        i := i + 1;
      }
      assert fs[..i] == fs && ks[..i] == ks;
    }

    /** write_room: the fields in order; the writer stays valid exactly when every text fits and so does the whole. */
    method WriteRoom(r: Room)
      requires Ok() && |r.members| == SEATS
      modifies this, bytes
      ensures Ok() && end == old(end)
      ensures valid <==> old(valid) && TextsFit(r) && old(at) + |EncodeFields(RoomFields(r))| <= end
      ensures valid ==> Written() == old(Written()) + EncodeFields(RoomFields(r))
      ensures old(Written()) <= Written()
    {
      FieldsFitIff(r);
      KindsMatch(r);
      hide EncodeFields, RoomFields, AllFitUnchecked, OfKind, TextsFit;
      PutFields(RoomFields(r), ROOM_KINDS);
    }

    /** read_number. */
    method GetNumber() returns (v: u32)
      requires Ok()
      modifies `at, `valid
      ensures Ok() && Read(Num(v), Cursor(at, valid)) == ReadNumber(Packet(), Cursor(old(at), old(valid)))
    {
      if !valid || at + 4 > end { valid := false; return 0; }
      assert Packet()[at..at + 4] == [bytes[at], bytes[at + 1], bytes[at + 2], bytes[at + 3]];
      v := bytes[at] as int + 256 * (bytes[at + 1] as int) + 65536 * (bytes[at + 2] as int)
           + 16777216 * (bytes[at + 3] as int);
      at := at + 4;
    }

    /** read_string. */
    method GetString(cap: nat) returns (t: Text)
      requires Ok()
      modifies `at, `valid
      ensures Ok() && Read(Str(t), Cursor(at, valid)) == ReadText(Packet(), Cursor(old(at), old(valid)), cap)
    {
      var n := GetNumber();
      t := [];
      if !valid || n >= cap || n > end - at { valid := false; return; }
      var body := bytes[at..at + n];
      assert Packet()[at..at + n] == body;
      var i := 0;
      while i < n
        invariant 0 <= i <= n
        invariant forall k :: 0 <= k < i ==> 32 <= body[k] && body[k] != 127
      {
        if body[i] < 32 || body[i] == 127 { assert !Printable(body); valid := false; return; }
        i := i + 1;
      }
      t := body;
      at := at + n;
    }

    /** read_room: reads on to the end even after the buffer went invalid. */
    method ReadRoom(epoch: u32, revision: u32) returns (r: Room)
      requires Ok()
      modifies `at, `valid
      ensures Ok()
      ensures var got := ReadFields(Packet(), Cursor(old(at), old(valid)), ROOM_KINDS);
              Cursor(at, valid) == got.next && r == RoomOf(got.fields, epoch, revision)
    {
      hide ReadField, ReadFields, RoomOf;
      ghost var start := Cursor(at, valid);
      var fs: seq<Field> := [];
      var i := 0;
      ReadNone(Packet(), start);
      assert ROOM_KINDS[..0] == [];
      while i < 23
        invariant 0 <= i <= 23 && Ok() && |fs| == i
        invariant ReadAll(fs, Cursor(at, valid)) == ReadFields(Packet(), start, ROOM_KINDS[..i])
      {
        ReadNext(Packet(), start, i);
        var f := GetField(ROOM_KINDS[i]);
        fs := fs + [f];
        i := i + 1;
      }
      assert ROOM_KINDS[..23] == ROOM_KINDS;
      r := RoomOf(fs, epoch, revision);
    }

    method GetField(k: Kind) returns (f: Field)
      requires Ok()
      modifies `at, `valid
      ensures Ok() && Packet() == old(Packet())
      ensures var r := ReadField(Packet(), Cursor(old(at), old(valid)), k); f == r.field && Cursor(at, valid) == r.next
    {
      hide ReadNumber, ReadText;
      match k {
        case KNum => var v := GetNumber(); f := Num(v);
        case KStr(cap) => var t := GetString(cap); f := Str(t);
      }
    }
  }

  /** The field is of the kind its array is for. */
  predicate OfKind(f: Field, k: Kind)
  {
    match k
    case KNum => f.Num?
    case KStr(cap) => f.Str? && cap <= PKT_MAX
  }

  lemma KindsMatch(r: Room)
    requires |r.members| == SEATS
    ensures forall i :: 0 <= i < 23 ==> OfKind(RoomFields(r)[i], ROOM_KINDS[i])
  {
    hide Mask;
  }

  lemma FieldsNone(fs: seq<Field>, ks: seq<Kind>)
    requires |fs| == |ks|
    ensures EncodeFields(fs[..0]) == [] && AllFitUnchecked(fs[..0], ks[..0])
  {
  }

  lemma FieldsNext(fs: seq<Field>, ks: seq<Kind>, i: nat)
    requires i < |fs| == |ks|
    ensures EncodeFields(fs[..i + 1]) == EncodeFields(fs[..i]) + EncodeField(fs[i])
    ensures AllFitUnchecked(fs[..i + 1], ks[..i + 1])
            <==> AllFitUnchecked(fs[..i], ks[..i]) && FitsUnchecked(fs[i], ks[i])
  {
    hide EncodeField, FitsUnchecked;
    var f, k := fs[..i + 1], ks[..i + 1];
    assert f[..i] == fs[..i] && f[i] == fs[i] && k[i] == ks[i];
    if AllFitUnchecked(f, k) {
      assert FitsUnchecked(f[i], k[i]);
      forall j | 0 <= j < i ensures FitsUnchecked(fs[..i][j], ks[..i][j]) { assert FitsUnchecked(f[j], k[j]); }
    } else if AllFitUnchecked(fs[..i], ks[..i]) && FitsUnchecked(fs[i], ks[i]) {
      forall j | 0 <= j < i + 1 ensures FitsUnchecked(f[j], k[j]) {
        if j < i { assert FitsUnchecked(fs[..i][j], ks[..i][j]); }
      }
    }
  }

  lemma ReadNone(b: seq<byte>, c: Cursor)
    ensures ReadFields(b, c, []) == ReadAll([], c)
  {
  }

  lemma ReadNext(b: seq<byte>, c: Cursor, i: nat)
    requires i < 23
    ensures var p := ReadFields(b, c, ROOM_KINDS[..i]);
            var r := ReadField(b, p.next, ROOM_KINDS[i]);
            ReadFields(b, c, ROOM_KINDS[..i + 1]) == ReadAll(p.fields + [r.field], r.next)
  {
    hide ReadField;
    assert ROOM_KINDS[..i + 1][..i] == ROOM_KINDS[..i];
  }
}
