/** What every host step keeps, and how one step may change the roster, the links and the ready mask. */
module LanRoomHost {
  import opened Common
  import opened LanRoom

  // ---- the host's own invariant -------------------------------------------

  /** Links and guest seats agree by id; the host's seat and empty seats have no link;
      linked addresses are pairwise distinct. */
  ghost predicate LinkTable(ms: seq<Member>, ls: seq<Link>, hostSlot: int)
  {
    && |ms| == SEATS && |ls| == SEATS && 0 <= hostSlot < SEATS
    && ls[hostSlot] == NO_LINK
    && (forall i :: 0 <= i < SEATS && i != hostSlot ==> ls[i].id == ms[i].id)
    && (forall i :: 0 <= i < SEATS && ls[i].id == 0 ==> ls[i] == NO_LINK)
    && (forall i :: 0 <= i < SEATS && ls[i].id != 0 ==> ls[i].addr != 0)
    && (forall i, j :: 0 <= i < j < SEATS && ls[i].id != 0 && ls[j].id != 0 ==> ls[i].addr != ls[j].addr)
  }

  ghost predicate NoneRetired(ms: seq<Member>, retired: seq<RetiredLink>)
  {
    forall i, k :: 0 <= i < |ms| && 0 <= k < |retired| && ms[i].id != 0 ==> retired[k].id != ms[i].id
  }

  ghost predicate HostOk(h: Host)
  {
    && Shape(h) && ValidRoom(h.room)
    && h.room.members[h.room.hostSlot].id == h.id && h.room.epoch == h.id
    && LinkTable(h.room.members, h.links, h.room.hostSlot) && NoneRetired(h.room.members, h.retired)
  }

  lemma OpenOk(id: u32, config: Room, password: Text)
    ensures HostOpen(id, config, password).Some? ==> HostOk(HostOpen(id, config, password).value)
  {
  }

  lemma ChangedOk(h: Host)
    requires HostOk(h)
    ensures HostOk(Changed(h))
  {
    assert Occupied(Changed(h).room) == Occupied(h.room);
  }

  /** A new configuration needs only the seat and link tables: its ready mask is empty. */
  lemma ConfigurationChangedOk(h: Host)
    requires Shape(h) && RoomNumbers(h.room) && SeatTable(h.room.members, h.room.maxSlots, h.room.hostSlot)
    requires h.room.members[h.room.hostSlot].id == h.id && h.room.epoch == h.id
    requires LinkTable(h.room.members, h.links, h.room.hostSlot) && NoneRetired(h.room.members, h.retired)
    ensures HostOk(ConfigurationChanged(h))
  {
  }

  lemma RemoveOk(h: Host, slot: nat, reason: int)
    requires HostOk(h) && slot < SEATS && slot != h.room.hostSlot && h.links[slot].id != 0
    ensures HostOk(RemoveMember(h, slot, reason).host)
  {
    var l := h.links[slot];
    var gone := h.(retired := h.retired[h.retiredAt := RetiredLink(l.id, l.addr, reason)],
                   retiredAt := (h.retiredAt + 1) % RETIRED_MAX,
                   links := h.links[slot := NO_LINK],
                   room := h.room.(members := h.room.members[slot := NO_MEMBER], ready := h.room.ready - {slot},
                                   starting := 0, session := 0));
    ConfigurationChangedOk(gone);
  }

  lemma SeatTableMove(ms: seq<Member>, max: int, hostSlot: int, from: int, to: int)
    requires SeatTable(ms, max, hostSlot) && 0 <= from < max && 0 <= to < max && from != to
    requires ms[from].id != 0 && ms[to].id == 0
    ensures SeatTable(ms[to := ms[from]][from := NO_MEMBER], max, if hostSlot == from then to else hostSlot)
  {
  }

  lemma LinkTableMove(ms: seq<Member>, ls: seq<Link>, hostSlot: int, from: int, to: int)
    requires LinkTable(ms, ls, hostSlot) && 0 <= from < SEATS && 0 <= to < SEATS && from != to
    requires ms[from].id != 0 && ms[to].id == 0 && ms[hostSlot].id != 0
    ensures LinkTable(ms[to := ms[from]][from := NO_MEMBER], ls[to := ls[from]][from := NO_LINK],
                      if hostSlot == from then to else hostSlot)
  {
  }

  lemma MoveOk(h: Host, from: int, to: int)
    requires HostOk(h)
    ensures HostOk(MoveMember(h, from, to).host)
  {
    if MoveMember(h, from, to).status == OK && from != to {
      SeatTableMove(h.room.members, h.room.maxSlots, h.room.hostSlot, from, to);
      LinkTableMove(h.room.members, h.links, h.room.hostSlot, from, to);
      var room := h.room.(members := h.room.members[to := h.room.members[from]][from := NO_MEMBER],
                          hostSlot := if h.room.hostSlot == from then to else h.room.hostSlot);
      ConfigurationChangedOk(h.(room := room, links := h.links[to := h.links[from]][from := NO_LINK]));
    }
  }

  lemma SeatOk(h: Host, slot: nat, id: u32, addr: Address, name: Text)
    requires HostOk(h) && slot < h.room.maxSlots && h.room.members[slot].id == 0
    requires id != 0 && addr != 0 && name != [] && !IsRetired(h, id) && !AddressTaken(h, addr)
    requires SlotOf(h.room, id) < 0
    ensures HostOk(Seat(h, slot, id, addr, name))
  {
    var h' := h.(room := h.room.(members := h.room.members[slot := Member(id, name)]),
                 links := h.links[slot := h.links[slot].(id := id, addr := addr)]);
    assert forall k :: 0 <= k < |h.retired| ==> h.retired[k] in h.retired;
    ConfigurationChangedOk(h');
  }

  lemma JoinOk(h: Host, u: Up)
    requires HostOk(h) && u.source != 0 && u.body.Join?
    ensures HostOk(HostJoin(h, u).host)
  {
    if u.id != 0 && u.body.name != [] && !Rejoins(h, u) && JoinStatus(h, u) == OK {
      SeatOk(h, SlotOf(h.room, 0), u.id, u.source, u.body.name);
    }
  }

  /** Changing only a link's counters keeps the invariant. */
  lemma LinkUpdateOk(h: Host, slot: nat, l: Link)
    requires HostOk(h) && slot < SEATS && h.links[slot].id != 0
    requires l.id == h.links[slot].id && l.addr == h.links[slot].addr
    ensures HostOk(h.(links := h.links[slot := l]))
  {
  }

  lemma ReadyBitOk(h: Host, slot: nat, ready: bool)
    requires HostOk(h) && slot in Occupied(h.room)
    ensures HostOk(SetReadyBit(h, slot, ready))
  {
    var mask := if ready then h.room.ready + {slot} else h.room.ready - {slot};
    var r := h.room.(ready := mask);
    assert Occupied(r) == Occupied(h.room);
    ChangedOk(h.(room := r));
  }

  lemma OpOk(h: Host, slot: nat, u: Up)
    requires HostOk(h) && slot < h.room.maxSlots && h.links[slot].id != 0 && u.body.Op?
    ensures HostOk(HostOp(h, slot, u).host)
  {
    if u.sequence > h.links[slot].sequence {
      var l := h.links[slot].(sequence := u.sequence);
      LinkUpdateOk(h, slot, l);
      var h1 := h.(links := h.links[slot := l]);
      assert slot in Occupied(h1.room);
      ReadyBitOk(h1, slot, u.body.a == 1);
      MoveOk(h1, slot, u.body.c);
    }
  }

  lemma BroadcastOk(h: Host, sender: nat, text: Text)
    requires HostOk(h) && sender < SEATS
    ensures HostOk(Broadcast(h, sender, text).host)
  {
  }

  lemma ReceiveOk(h: Host, u: Up, due: bool)
    requires HostOk(h) && u.source != 0
    ensures HostOk(HostReceive(h, u, due).host)
  {
    if u.body.Join? { JoinOk(h, u); }
    else if Owns(h, u) {
      var slot := SlotOf(h.room, u.id);
      assert h.links[slot].id != 0;
      match u.body {
        case Leave => RemoveOk(h, slot, CLOSED);
        case Op(_, _, _) => OpOk(h, slot, u);
        case ChatRequest(text) =>
          var l := h.links[slot].(chatSequence := u.sequence);
          LinkUpdateOk(h, slot, l);
          BroadcastOk(h.(links := h.links[slot := l]), slot, text);
        case Ack => LinkUpdateOk(h, slot, h.links[slot].(roomAck := u.revision));
        case StartAck =>
          LinkUpdateOk(h, slot, h.links[slot].(roomAck := u.revision));
          LinkUpdateOk(h, slot, h.links[slot].(roomAck := u.revision, startAck := u.revision));
        case Join(_, _, _, _, _) =>
      }
    }
  }

  lemma BeginOk(h: Host, session: u32)
    requires HostOk(h)
    ensures HostOk(HostBegin(h, session))
  {
    assert Occupied(HostBegin(h, session).room) == Occupied(h.room);
  }

  lemma CapsOk(h: Host, caps: Caps)
    requires HostOk(h)
    ensures HostOk(HostSetCaps(h, caps))
  {
    if HostSetCaps(h, caps) != h { ConfigurationChangedOk(h.(room := h.room.(caps := caps))); }
  }

  /** Every packet and every call keeps the host's invariant. */
  lemma StepOk(h: Host, e: HostEvent)
    requires HostOk(h) && (e.Receive? ==> e.u.source != 0)
    ensures HostOk(HostStep(h, e).host)
  {
    hide HostReceive, RemoveMember, MoveMember, HostBegin, HostSetCaps, Echoes, States, Closes, LaunchReady, AllReady;
    match e
    case Receive(u, due) => ReceiveOk(h, u, due);
    case Expire(slot) => if HostExpire(h, slot) != HostOut(h, []) { RemoveOk(h, slot, TIMEOUT); }
    case Begin(session) => BeginOk(h, session);
    case SetReady(ready) => if HostSetReady(h, ready) != h { ReadyBitOk(h, SlotOf(h.room, h.id), ready); }
    case Kick(slot) => if HostKick(h, slot) != HostOut(h, []) { RemoveOk(h, slot, KICKED); }
    case Move(from, to) => MoveOk(h, from, to);
    case SetCaps(caps) => CapsOk(h, caps);
    case Say(text) => BroadcastOk(h, SlotOf(h.room, h.id), text);
    case _ =>
  }
}
