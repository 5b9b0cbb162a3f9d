/** What each event does to a guest. */
module LanRoomGuestRules {
  import opened Common
  import opened LanRoom

  // ---- hearing -----------------------------------------------------------------

  /** The packet concerns this guest: it carries its id and, once joined, the number of its room. */
  predicate Concerns(g: Guest, d: Down)
  {
    d.id == g.id && (g.joined ==> d.epoch == g.room.epoch)
  }

  /** A packet for somebody else, or of another room, does nothing; a refusal needs no room. */
  lemma OthersIgnored(g: Guest, d: Down)
    requires !Concerns(g, d)
    ensures GuestStep(g, Hear(d)) == GuestOut(g, [])
  {
  }

  /** A refusal ends a guest that has not joined, with the code it carries. */
  lemma RefusalEffect(g: Guest, d: Down)
    requires Concerns(g, d) && d.body.Nak?
    ensures GuestStep(g, Hear(d))
            == GuestOut(if g.joined then g
                        else g.(status := if d.body.status >= 0 then IDENTITY else d.body.status), [])
  {
  }

  /** A CLOSE ends a guest that has joined, with the reason it carries. */
  lemma CloseEffect(g: Guest, d: Down)
    requires Concerns(g, d) && d.body.Close?
    ensures GuestStep(g, Hear(d))
            == GuestOut(if g.joined then g.(status := if d.body.status >= 0 then CLOSED else d.body.status) else g, [])
  {
  }

  /** The roster that a state packet announces, under the numbers of its header. */
  function Told(d: Down): Room
    requires d.body.Roster? || d.body.Launch?
  {
    var r := d.body.room;
    Room(r.name, r.game, r.version, r.endpoint, r.caps, d.epoch, d.revision, r.configuration, r.session, r.ready,
         r.maxSlots, r.hostSlot, r.starting, r.members)
  }

  /** A roster of the guest's own game that it has seats for, and that is not older than the one it holds. */
  predicate Usable(g: Guest, r: Room)
  {
    && ValidRoom(r) && r.game == g.game && r.version == g.version && r.maxSlots <= g.supported
    && (g.joined ==> r.revision >= g.room.revision)
  }

  /** The guest has a seat in it. */
  predicate SeatedIn(r: Room, id: u32)
    requires |r.members| == SEATS && r.maxSlots <= SEATS
  {
    exists i :: 0 <= i < r.maxSlots && r.members[i].id == id
  }

  lemma SeatedIff(r: Room, id: u32)
    requires ValidRoom(r)
    ensures SeatedIn(r, id) <==> SlotOf(r, id) >= 0
  {
    if i :| 0 <= i < r.maxSlots && r.members[i].id == id { assert Seats(r)[i].id == id; }
  }

  /** A roster that is no use is ignored. One that contradicts the one held under the same number, or leaves the guest
      out, ends the guest. Any other is adopted and acknowledged. */
  lemma StateEffect(g: Guest, d: Down)
    requires Concerns(g, d) && (d.body.Roster? || d.body.Launch?)
    ensures var o := GuestStep(g, Hear(d));
      var r := Told(d);
      && (!Usable(g, r) ==> o == GuestOut(g, []))
      && (Usable(g, r) ==>
            if g.joined && r.revision == g.room.revision && r != g.room then o == GuestOut(g.(status := IDENTITY), [])
            else if !SeatedIn(r, g.id) then o == GuestOut(g.(status := KICKED), [])
            else Adopted(g, o, r, d.body.Launch? && r.starting != 0, d.sequence))
  {
    var r := Told(d);
    assert Announced(d) == r;
    if ValidRoom(r) { SeatedIff(r, g.id); }
    hide ValidRoom, SlotOf, SeatedIn;
  }

  /** The guest holds the roster, is joined and in order, drops a request the host has recorded, remembers whether it
      was told of this start, and says which roster it holds. */
  ghost predicate Adopted(g: Guest, o: GuestOut, r: Room, launch: bool, recorded: u32)
  {
    && o.guest == g.(room := r, joined := true, status := OK,
                     startSeen := o.guest.startSeen, pending := o.guest.pending)
    && (o.guest.startSeen <==> launch || (g.startSeen && r.starting != 0))
    && o.guest.pending == (if recorded >= g.sequence then None else g.pending)
    && o.sent == [Up(g.addr, r.epoch, g.id, g.sequence, r.revision, if launch then StartAck else Ack)]
  }

  // ---- talking -----------------------------------------------------------------

  /** What a guest repeats: its JOIN until it is joined, then its open request, then which roster it holds. */
  lemma RepeatEffect(g: Guest)
    ensures var o := GuestStep(g, Repeat);
      && o.guest == g && |o.sent| == 1
      && var u := o.sent[0];
         && u.source == g.addr && u.id == g.id
         && (!g.joined ==>
               && u.body == Join(g.game, g.version, g.password, g.name, g.supported)
               && u.epoch == u.sequence == u.revision == 0)
         && (g.joined ==> u.epoch == g.room.epoch && u.sequence == g.sequence)
         && (g.joined && g.pending.Some? ==>
               u.revision == g.pending.value.revision
               && u.body == Op(g.pending.value.op, g.pending.value.a, g.pending.value.b))
         && (g.joined && g.pending.None? ==>
               u.revision == g.room.revision && (u.body.Ack? || u.body.StartAck?)
               && (u.body.StartAck? <==> g.room.starting != 0))
  {
  }

  /** A new request takes the next number and replaces the open one. */
  ghost predicate Asks(g: Guest, g': Guest, op: u32, a: u32, b: u32)
  {
    g.sequence < U32_MAX && g' == g.(sequence := g.sequence + 1, pending := Some(Pending(op, a, b, g.room.revision)))
  }

  /** A guest may ask: it is joined, has not failed, nothing is frozen, and numbers are left. */
  predicate MayAsk(g: Guest)
  {
    g.joined && g.status >= 0 && g.room.starting == 0 && g.sequence < U32_MAX
  }

  /** A vote asks for its bit, for the configuration in view. */
  lemma VoteAsks(g: Guest, ready: bool)
    ensures var o := GuestStep(g, Vote(ready));
      && o.sent == []
      && (MayAsk(g) ==> Asks(g, o.guest, 1, if ready then 1 else 0, g.room.configuration))
      && (!MayAsk(g) ==> o.guest == g)
  {
  }

  /** A claim asks to move out of the guest's own seat into a free one. */
  lemma ClaimAsks(g: Guest, from: int, to: int)
    requires g.joined ==> ValidRoom(g.room)
    ensures var o := GuestStep(g, Claim(from, to));
      && o.sent == []
      && (if && MayAsk(g) && 0 <= from < g.room.maxSlots && 0 <= to < g.room.maxSlots
             && g.room.members[from].id == g.id && (forall i :: 0 <= i < from ==> g.room.members[i].id != g.id)
             && g.room.members[to].id == 0
          then Asks(g, o.guest, 2, from, to) else o.guest == g)
  {
    if g.joined && 0 <= from < g.room.maxSlots {
      assert SlotOf(g.room, g.id) == from
             <==> g.room.members[from].id == g.id && forall i :: 0 <= i < from ==> g.room.members[i].id != g.id;
    }
  }

  /** A line a guest may say goes out once, under its next number. */
  lemma SpeakEffect(g: Guest, text: Text)
    ensures var o := GuestStep(g, Speak(text));
      if && g.joined && g.status >= 0 && 0 < |text| < 256 && g.chatSequence < U32_MAX
         && (forall k :: 0 <= k < |text| ==> 32 <= text[k] && text[k] != 127)
      then && o.guest == g.(chatSequence := g.chatSequence + 1)
           && o.sent == [Up(g.addr, g.room.epoch, g.id, g.chatSequence + 1, g.room.revision, ChatRequest(text))]
      else o == GuestOut(g, [])
  {
  }

  /** A guest that goes says so if it had joined, unless the room is launched and the handoff is over. */
  lemma QuitEffect(g: Guest, handedOff: bool)
    ensures var o := GuestStep(g, Quit(handedOff));
      var launched := handedOff && g.status >= 0 && g.room.starting != 0 && g.startSeen;
      && o.guest == g.(open := false)
      && o.sent == (if g.joined && !launched
                    then [Up(g.addr, g.room.epoch, g.id, g.sequence, g.room.revision, Leave)] else [])
  {
  }

  /** A lost host is a timeout, and a taken line is the oldest. */
  lemma QuietEffects(g: Guest)
    ensures GuestStep(g, LoseHost) == GuestOut(g.(status := TIMEOUT), [])
    ensures var o := GuestStep(g, TakeLine);
      && o.sent == [] && o.guest == g.(chat := o.guest.chat)
      && (if g.chat == [] then o.guest.chat == [] else g.chat == [g.chat[0]] + o.guest.chat)
  {
  }
}
