/** The protocol and its wire form together: every roster a host sends reads back as itself. */
module LanRoomWire {
  import opened Common
  import opened LanRoom
  import opened LanRoomHost
  import opened LanRoomProtocol
  import opened LanRoomCodec

  /** Names are checked wherever a member enters. */
  ghost predicate NamesOk(ms: seq<Member>)
  {
    forall i :: 0 <= i < |ms| ==> |ms[i].name| < 64 && Printable(ms[i].name)
  }

  /** The other texts are printable; opening a host checks none of them. */
  ghost predicate PlainTexts(r: Room)
  {
    Printable(r.name) && Printable(r.game) && Printable(r.version) && Printable(r.endpoint) && Printable(r.caps.mods)
  }

  /** The texts of a roster fit their arrays and names are printable; with `plain`, so is the rest. */
  ghost predicate TextsOk(r: Room, plain: bool)
  {
    TextsFit(r) && NamesOk(r.members) && (plain ==> PlainTexts(r))
  }

  lemma OpenedTexts(h: Host)
    requires Opened(h)
    ensures TextsOk(h.room, false)
  {
    assert Printable(NO_MEMBER.name);
    hide Printable, ValidRoom;
  }

  ghost predicate JoinNameOk(u: Up)
  {
    u.body.Join? ==> |u.body.name| < 64 && Printable(u.body.name)
  }

  lemma RemoveTexts(plain: bool, h: Host, slot: nat, reason: int)
    requires Shape(h) && slot < SEATS && TextsOk(h.room, plain)
    ensures TextsOk(RemoveMember(h, slot, reason).host.room, plain)
  {
    assert Printable(NO_MEMBER.name);
    hide Printable;
  }

  lemma MoveTexts(plain: bool, h: Host, from: int, to: int)
    requires Shape(h) && TextsOk(h.room, plain)
    ensures TextsOk(MoveMember(h, from, to).host.room, plain)
  {
    assert Printable(NO_MEMBER.name);
    hide Printable;
  }

  lemma JoinTexts(plain: bool, h: Host, u: Up)
    requires Shape(h) && TextsOk(h.room, plain) && JoinNameOk(u) && u.body.Join?
    ensures TextsOk(HostJoin(h, u).host.room, plain)
  {
    hide Printable, SlotOf, JoinStatus, Rejoins, SendState;
  }

  lemma OpTexts(plain: bool, h: Host, slot: nat, u: Up)
    requires Shape(h) && TextsOk(h.room, plain) && slot < SEATS && u.body.Op?
    ensures TextsOk(HostOp(h, slot, u).host.room, plain)
  {
    hide SlotOf, Occupied, Printable, MoveMember, NamesOk;
    MoveTexts(plain, h.(links := h.links[slot := h.links[slot].(sequence := u.sequence)]), slot, u.body.c);
  }

  lemma ReceiveTexts(plain: bool, h: Host, u: Up, due: bool)
    requires Shape(h) && TextsOk(h.room, plain) && JoinNameOk(u)
    ensures TextsOk(HostReceive(h, u, due).host.room, plain)
  {
    hide SlotOf, Occupied, Printable, NamesOk, HostJoin, HostOp, RemoveMember, Echoes;
    if u.body.Join? { JoinTexts(plain, h, u); }
    else if Owns(h, u) {
      var slot := SlotOf(h.room, u.id);
      if u.body.Op? { OpTexts(plain, h, slot, u); }
      if u.body.Leave? { RemoveTexts(plain, h, slot, CLOSED); }
    }
  }

  lemma StepTexts(plain: bool, h: Host, e: HostEvent)
    requires Shape(h) && TextsOk(h.room, plain) && (e.Receive? ==> JoinNameOk(e.u))
    ensures TextsOk(HostStep(h, e).host.room, plain)
  {
    hide SlotOf, Occupied, HostReceive, RemoveMember, MoveMember, Echoes, States, Closes, ValidRoom, LaunchReady,
         AllReady, NamesOk;
    match e
    case Receive(u, due) => ReceiveTexts(plain, h, u, due);
    case Move(from, to) => MoveTexts(plain, h, from, to);
    case Expire(slot) => if 0 <= slot < SEATS { RemoveTexts(plain, h, slot, TIMEOUT); }
    case Kick(slot) => if 0 <= slot < SEATS { RemoveTexts(plain, h, slot, KICKED); }
    case _ =>
  }

  /** Guests were opened with printable names, so every JOIN on the network carries one. */
  ghost predicate NamesInv(s: System, plain: bool)
  {
    && TextsOk(s.host.room, plain)
    && (forall id :: id in s.guests ==> |s.guests[id].name| < 64 && Printable(s.guests[id].name))
    && (forall u :: u in s.up ==> JoinNameOk(u))
  }

  lemma GuestNames(g: Guest, e: GuestEvent)
    requires |g.name| < 64 && Printable(g.name)
    ensures GuestStep(g, e).guest.name == g.name
    ensures forall u :: u in GuestStep(g, e).sent ==> JoinNameOk(u)
  {
    hide GuestReceive, Printable, SlotOf;
    if e.Hear? { HearNames(g, e.d); }
  }

  lemma HearNames(g: Guest, d: Down)
    ensures GuestReceive(g, d).guest.name == g.name
    ensures forall u :: u in GuestReceive(g, d).sent ==> !u.body.Join?
  {
    hide ValidRoom, SlotOf, Acceptable, Contradicts;
  }

  lemma TurnNames(plain: bool, s: System, e: Event)
    requires Shape(s.host) && NamesInv(s, plain)
    ensures NamesInv(Turn(s, e), plain)
  {
    hide HostStep, GuestStep, TextsOk;
    if Enabled(s, e) {
      match e
      case AtHost(he) => StepTexts(plain, s.host, he);
      case AtGuest(id, ge) => GuestNames(s.guests[id], ge);
      case Opens(_, _, _, _, _, _, _) =>
    }
  }

  lemma {:induction false} RunNames(plain: bool, h: Host, es: seq<Event>)
    requires Shape(h) && TextsOk(h.room, plain)
    ensures NamesInv(Execute(h, es), plain)
  {
    hide Turn;
    if es != [] {
      RunNames(plain, h, es[..|es| - 1]);
      TurnNames(plain, Execute(h, es[..|es| - 1]), es[|es| - 1]);
    }
  }

  /** A reader accepts the packet of this roster. */
  ghost predicate Readable(r: Room)
    requires |r.members| == SEATS
  {
    forall before: seq<byte>, after: seq<byte> ::
      ReadFields(before + EncodeFields(RoomFields(r)) + after, Cursor(|before|, true), ROOM_KINDS).next.valid
  }

  lemma ReadIff(r: Room, before: seq<byte>, after: seq<byte>)
    requires |r.members| == SEATS && TextsFit(r)
    ensures ReadFields(before + EncodeFields(RoomFields(r)) + after, Cursor(|before|, true), ROOM_KINDS).next.valid
            <==> TextsPrintable(r)
  {
    hide EncodeFields, ReadFields, RoomFields, TextsFit, TextsPrintable, AllFit;
    var fs := RoomFields(r);
    var b := before + EncodeFields(fs) + after;
    assert Stands(b, |before|, EncodeFields(fs));
    FieldsFitIff(r);
    FieldsPrintableIff(r);
    FieldsReadIff(b, |before|, fs, ROOM_KINDS);
  }

  /** For every roster whose texts fit their arrays: it can be read back exactly when every text is printable. */
  lemma ReadableIff(r: Room)
    requires |r.members| == SEATS && TextsFit(r)
    ensures Readable(r) <==> TextsPrintable(r)
  {
    hide EncodeFields, ReadFields, RoomFields, TextsFit, TextsPrintable;
    if TextsPrintable(r) {
      forall before: seq<byte>, after: seq<byte>
        ensures ReadFields(before + EncodeFields(RoomFields(r)) + after, Cursor(|before|, true), ROOM_KINDS).next.valid
      {
        ReadIff(r, before, after);
      }
    } else {
      ReadIff(r, [], []);
    }
  }

  /** In every run of every opened host the roster fits its packet, and guests can read it exactly when the room's
      own texts are printable. */
  lemma RosterReadableIff(h: Host, es: seq<Event>)
    requires Shape(h) && Opened(h)
    ensures var r := Execute(h, es).host.room;
      |r.members| == SEATS && HEADER + |EncodeFields(RoomFields(r))| <= 1143 && (Readable(r) <==> PlainTexts(r))
  {
    hide Execute, EncodeFields, RoomFields, Readable, Printable;
    OpenedTexts(h);
    RunNames(false, h, es);
    var r := Execute(h, es).host.room;
    RoomFitsPacket(r);
    ReadableIff(r);
  }

  /** Guests can read every roster of every run exactly when the texts the host was opened with are printable. */
  lemma AlwaysReadableIff(h: Host)
    requires Shape(h) && Opened(h)
    ensures (forall es: seq<Event> :: |Execute(h, es).host.room.members| == SEATS && Readable(Execute(h, es).host.room))
            <==> PlainTexts(h.room)
  {
    hide Execute, Readable, PlainTexts, TextsFit, NamesOk;
    OpenedTexts(h);
    if PlainTexts(h.room) {
      forall es: seq<Event>
        ensures |Execute(h, es).host.room.members| == SEATS && Readable(Execute(h, es).host.room)
      {
        RunNames(true, h, es);
        RosterReadableIff(h, es);
      }
    } else {
      StartsAsOpened(h);
      RosterReadableIff(h, []);
    }
  }

  lemma StartsAsOpened(h: Host)
    requires Shape(h)
    ensures Execute(h, []).host == h
  {
  }

  /** In every run of a host opened with printable texts, its roster reads back exactly. */
  lemma EveryRosterReadsBack(h: Host, es: seq<Event>, header: seq<byte>)
    requires Shape(h) && Opened(h) && PlainTexts(h.room) && |header| == HEADER
    ensures var r := Execute(h, es).host.room;
            |r.members| == SEATS
            && var b := header + EncodeFields(RoomFields(r));
               var got := ReadFields(b, Cursor(HEADER, true), ROOM_KINDS);
               |b| <= 1143 && got.next == Cursor(|b|, true) && RoomOf(got.fields, r.epoch, r.revision) == r
  {
    hide Execute, EncodeFields, ReadFields, RoomFields, RoomOf, Printable;
    OpenedTexts(h);
    RunInv(h, es);
    RunNames(true, h, es);
    var r := Execute(h, es).host.room;
    assert Encodable(r) by { MaskBits(Execute(h, es).host); }
    hide Encodable;
    RoomRoundTrip(r, header, []);
    RoomFitsPacket(r);
    assert header + EncodeFields(RoomFields(r)) + [] == header + EncodeFields(RoomFields(r));
  }

  lemma MaskBits(h: Host)
    requires HostOk(h)
    ensures forall i :: i in h.room.ready ==> i < 32
  {
  }

  /** A configuration that opens and that no guest can read: a printable room name and an unprintable endpoint. */
  const MUTE_ROOM := Room([82], [71], [49], [7], Caps(2, 0, 2, 0, []), 1, 1, 1, 0, {}, 2, 0, 0,
                          [Member(1, [65]), NO_MEMBER, NO_MEMBER, NO_MEMBER])

  lemma UnreadableExample()
    ensures var h := HostOpen(1, MUTE_ROOM, []);
      h.Some? && h.value.room == MUTE_ROOM && Printable(MUTE_ROOM.name) && !Readable(MUTE_ROOM)
  {
    var h := HostOpen(1, MUTE_ROOM, []);
    assert MUTE_ROOM.endpoint[0] == 7;
    assert !Printable(MUTE_ROOM.endpoint);
    ReadableIff(MUTE_ROOM);
    hide Readable, EncodeFields, ReadFields;
  }

  // ---- the bytes of a roster -------------------------------------------------

  lemma {:induction false} EncodeSplit(a: seq<Field>, b: seq<Field>)
    ensures EncodeFields(a + b) == EncodeFields(a) + EncodeFields(b)
    decreases |b|
  {
    hide EncodeField;
    if b == [] {
      assert a + b == a;
    } else {
      var front := b[..|b| - 1];
      EncodeSplit(a, front);
      assert (a + b)[..|a| + |b| - 1] == a + front;
      assert EncodeFields(a) + EncodeFields(b)
             == (EncodeFields(a) + EncodeFields(front)) + EncodeField(b[|b| - 1]);
    }
  }

  lemma EncodeTwo(f: Field, g: Field)
    ensures EncodeFields([f, g]) == EncodeField(f) + EncodeField(g)
  {
    hide EncodeField;
    assert [f, g][..1] == [f] && [f][..0] == [];
    assert EncodeFields([f]) == EncodeField(f);
  }

  lemma EncodeFour(f: Field, g: Field, h: Field, i: Field)
    ensures EncodeFields([f, g, h, i]) == EncodeField(f) + EncodeField(g) + EncodeField(h) + EncodeField(i)
  {
    hide EncodeField, EncodeFields;
    assert [f, g, h, i] == [f, g] + [h, i];
    EncodeSplit([f, g], [h, i]);
    EncodeTwo(f, g);
    EncodeTwo(h, i);
  }

  lemma EncodeFive(f: Field, g: Field, h: Field, i: Field, j: Field)
    ensures EncodeFields([f, g, h, i, j])
            == EncodeField(f) + EncodeField(g) + EncodeField(h) + EncodeField(i) + EncodeField(j)
  {
    hide EncodeField, EncodeFields;
    assert [f, g, h, i, j] == [f, g, h, i] + [j];
    EncodeSplit([f, g, h, i], [j]);
    EncodeFour(f, g, h, i);
    EncodeOne(j);
  }

  lemma EncodeOne(f: Field)
    ensures EncodeFields([f]) == EncodeField(f)
  {
    hide EncodeField;
    assert [f][..0] == [];
  }

  /** A roster with a value of its own in every field; `starting` shows how a negative int goes out. */
  const SAMPLE := Room([82], [71], [86], [69], Caps(7, 8, 9, 10, [77]), 1, 1, 6, 0x04030201, {1, 3}, 4, 2, -1,
                       [Member(11, [97]), Member(12, [98]), Member(13, [99]), NO_MEMBER])

  lemma {:induction false} NoHigherBits(s: set<nat>, k: nat)
    requires k <= 32 && forall i :: i in s ==> i < k
    ensures MaskFrom(s, k) == 0
    decreases 32 - k
  {
    if k < 32 { NoHigherBits(s, k + 1); }
  }

  lemma SampleMask()
    ensures Mask({1, 3}) == 10
  {
    var s := {1, 3};
    NoHigherBits(s, 4);
    assert MaskFrom(s, 3) == 1 && MaskFrom(s, 2) == 2 && MaskFrom(s, 1) == 5;
  }

  const TEXTS := [Str([82]), Str([71]), Str([86]), Str([69]), Str([77])]
  const NUMBERS := [Num(4), Num(2), Num(10), Num(6), Num(0x04030201)]
  const CAPS := [Num(7), Num(8), Num(9), Num(10), Num(0xFFFF_FFFF)]
  const FRONT_SEATS := [Num(11), Str([97]), Num(12), Str([98])]
  const BACK_SEATS := [Num(13), Str([99]), Num(0), Str([])]

  lemma SampleFields()
    ensures RoomFields(SAMPLE) == TEXTS + NUMBERS + CAPS + FRONT_SEATS + BACK_SEATS
  {
    SampleMask();
    hide Mask;
  }

  lemma SampleTexts()
    ensures EncodeFields(TEXTS)
            == [1, 0, 0, 0, 82] + [1, 0, 0, 0, 71] + [1, 0, 0, 0, 86] + [1, 0, 0, 0, 69] + [1, 0, 0, 0, 77]
  {
    hide EncodeFields;
    EncodeFive(TEXTS[0], TEXTS[1], TEXTS[2], TEXTS[3], TEXTS[4]);
  }

  lemma SampleNumbers()
    ensures EncodeFields(NUMBERS) == [4, 0, 0, 0] + [2, 0, 0, 0] + [10, 0, 0, 0] + [6, 0, 0, 0] + [1, 2, 3, 4]
    ensures EncodeFields(CAPS) == [7, 0, 0, 0] + [8, 0, 0, 0] + [9, 0, 0, 0] + [10, 0, 0, 0] + [255, 255, 255, 255]
  {
    hide EncodeFields;
    EncodeFive(NUMBERS[0], NUMBERS[1], NUMBERS[2], NUMBERS[3], NUMBERS[4]);
    EncodeFive(CAPS[0], CAPS[1], CAPS[2], CAPS[3], CAPS[4]);
  }

  lemma SampleSeats()
    ensures EncodeFields(FRONT_SEATS) == [11, 0, 0, 0] + [1, 0, 0, 0, 97] + [12, 0, 0, 0] + [1, 0, 0, 0, 98]
    ensures EncodeFields(BACK_SEATS) == [13, 0, 0, 0] + [1, 0, 0, 0, 99] + [0, 0, 0, 0] + [0, 0, 0, 0]
  {
    hide EncodeFields;
    EncodeFour(FRONT_SEATS[0], FRONT_SEATS[1], FRONT_SEATS[2], FRONT_SEATS[3]);
    EncodeFour(BACK_SEATS[0], BACK_SEATS[1], BACK_SEATS[2], BACK_SEATS[3]);
  }

  /** The roster on the wire: five counted texts, ten little-endian numbers, four seats. */
  lemma SampleBytes()
    ensures EncodeFields(RoomFields(SAMPLE))
            == [1, 0, 0, 0, 82] + [1, 0, 0, 0, 71] + [1, 0, 0, 0, 86] + [1, 0, 0, 0, 69] + [1, 0, 0, 0, 77]
               + ([4, 0, 0, 0] + [2, 0, 0, 0] + [10, 0, 0, 0] + [6, 0, 0, 0] + [1, 2, 3, 4])
               + ([7, 0, 0, 0] + [8, 0, 0, 0] + [9, 0, 0, 0] + [10, 0, 0, 0] + [255, 255, 255, 255])
               + ([11, 0, 0, 0] + [1, 0, 0, 0, 97] + [12, 0, 0, 0] + [1, 0, 0, 0, 98])
               + ([13, 0, 0, 0] + [1, 0, 0, 0, 99] + [0, 0, 0, 0] + [0, 0, 0, 0])
  {
    hide EncodeFields, RoomFields;
    SampleFields();
    EncodeSplit(TEXTS + NUMBERS + CAPS + FRONT_SEATS, BACK_SEATS);
    EncodeSplit(TEXTS + NUMBERS + CAPS, FRONT_SEATS);
    EncodeSplit(TEXTS + NUMBERS, CAPS);
    EncodeSplit(TEXTS, NUMBERS);
    SampleTexts();
    SampleNumbers();
    SampleSeats();
  }
}
