/** Who gets a seat in a waiting room: the answer to every JOIN, and where a seat comes from over whole runs. */
module LanRoomAdmission {
  import opened Common
  import opened LanRoom
  import opened LanRoomHost
  import opened LanRoomEvolution
  import opened LanRoomGuest
  import opened LanRoomProtocol
  import opened LanRoomTheorems

  // ---- one JOIN -----------------------------------------------------------

  predicate Holds(h: Host, id: u32, i: int)
    requires Shape(h)
  {
    0 <= i < h.room.maxSlots && h.room.members[i].id == id
  }

  predicate Unseated(h: Host, id: u32)
    requires Shape(h)
  {
    forall i :: 0 <= i < h.room.maxSlots ==> h.room.members[i].id != id
  }

  /** The id is one of the sixteen last removed. */
  predicate Removed(h: Host, id: u32)
  {
    exists k :: 0 <= k < |h.retired| && h.retired[k].id == id
  }

  /** The same game and version, and enough seats on the guest's side. */
  predicate Suits(h: Host, u: Up)
    requires u.body.Join?
  {
    u.body.game == h.room.game && u.body.version == h.room.version && u.body.supported >= h.room.maxSlots
  }

  predicate AddressFree(h: Host, a: Address)
    requires Shape(h)
  {
    forall i :: 0 <= i < h.room.maxSlots && h.links[i].id != 0 ==> h.links[i].addr != a
  }

  /** The host stays as it was and answers the JOIN with this code. */
  ghost predicate RefusedWith(h: Host, u: Up, code: int)
    requires Shape(h) && u.body.Join?
  {
    HostReceive(h, u, true) == HostReceive(h, u, false)
    == HostOut(h, [Down(u.source, h.room.epoch, u.id, 0, h.room.revision, Nak(code))])
  }

  /** The sender takes the first free seat under its own name and address, all votes are void, and it alone is told. */
  ghost predicate SeatedAt(h: Host, u: Up, i: int)
    requires Shape(h) && u.body.Join?
  {
    && Holds(h, 0, i) && (forall j :: 0 <= j < i ==> h.room.members[j].id != 0)
    && forall due :: var o := HostReceive(h, u, due);
       && o.host.room.members == h.room.members[i := Member(u.id, u.body.name)] && o.host.room.ready == {}
       && o.host.links == h.links[i := h.links[i].(id := u.id, addr := u.source)]
       && o.host.room.configuration == o.host.room.revision
       && o.host.retired == h.retired && o.host.password == h.password && o.host.chat == h.chat
       && o.sent == [Down(u.source, h.room.epoch, u.id, h.links[i].sequence, o.host.room.revision, Roster(o.host.room))]
  }

  /** A JOIN of an id without a seat: it is seated exactly when nothing speaks against it, and every refusal has its
      code. */
  lemma NewcomerAnswered(h: Host, u: Up)
    requires Shape(h) && u.body.Join? && u.id != 0 && u.body.name != [] && Unseated(h, u.id)
    ensures Removed(h, u.id) ==> RefusedWith(h, u, STALE)
    ensures !Removed(h, u.id) && !Suits(h, u) ==> RefusedWith(h, u, IDENTITY)
    ensures !Removed(h, u.id) && Suits(h, u) && u.body.password != h.password ==> RefusedWith(h, u, PASSWORD)
    ensures !Removed(h, u.id) && Suits(h, u) && u.body.password == h.password ==>
              && (h.room.starting != 0 ==> RefusedWith(h, u, STARTED))
              && (h.room.starting == 0 && !AddressFree(h, u.source) ==> RefusedWith(h, u, IDENTITY))
              && (h.room.starting == 0 && AddressFree(h, u.source) && Unseated(h, 0) ==> RefusedWith(h, u, FULL))
              && (h.room.starting == 0 && AddressFree(h, u.source) && !Unseated(h, 0) ==>
                    exists i :: SeatedAt(h, u, i))
  {
    assert Removed(h, u.id) <==> IsRetired(h, u.id) by { RemovedIff(h, u.id); }
    hide IsRetired, Removed;
    assert AddressFree(h, u.source) <==> !AddressTaken(h, u.source);
    hide AddressTaken, AddressFree;
    if !Removed(h, u.id) && Suits(h, u) && u.body.password == h.password && h.room.starting == 0
       && AddressFree(h, u.source) && !Unseated(h, 0) {
      NewcomerSeated(h, u);
      assert SeatedAt(h, u, SlotOf(h.room, 0));
    }
  }

  lemma RemovedIff(h: Host, id: u32)
    ensures Removed(h, id) <==> IsRetired(h, id)
  {
    if Removed(h, id) {
      var k :| 0 <= k < |h.retired| && h.retired[k].id == id;
      assert h.retired[k] in h.retired;
    }
  }

  lemma NewcomerSeated(h: Host, u: Up)
    requires Shape(h) && u.body.Join? && u.id != 0 && u.body.name != [] && Unseated(h, u.id)
    requires JoinStatus(h, u) == OK
    ensures SeatedAt(h, u, SlotOf(h.room, 0))
  {
    hide IsRetired, AddressTaken;
  }

  /** A JOIN without an id or a name is ignored. */
  lemma NamelessIgnored(h: Host, u: Up, due: bool)
    requires Shape(h) && u.body.Join? && (u.id == 0 || u.body.name == [])
    ensures HostReceive(h, u, due) == HostOut(h, [])
  {
  }

  /** Admission in one line: a JOIN of an unseated id changes the host exactly when it comes from nobody just removed,
      fits the room, knows the password, finds the room open, an address of its own and a free seat. */
  lemma AdmittedIff(h: Host, u: Up, due: bool)
    requires Shape(h) && u.body.Join? && u.id != 0 && u.body.name != [] && Unseated(h, u.id)
    ensures (exists i :: Holds(HostReceive(h, u, due).host, u.id, i))
            <==> && !Removed(h, u.id) && Suits(h, u) && u.body.password == h.password && h.room.starting == 0
                 && AddressFree(h, u.source) && !Unseated(h, 0)
  {
    NewcomerAnswered(h, u);
    hide HostReceive, Suits, AddressFree, Removed;
    var h' := HostReceive(h, u, due).host;
    if h' == h {
      assert forall i :: !Holds(h, u.id, i);
    } else {
      var i :| SeatedAt(h, u, i);
      assert h'.room.members[i].id == u.id;
      JoinFixed(h, u);
      assert Holds(h', u.id, i);
    }
  }

  /** A JOIN of a seated id: its owner, from its own address, is told the roster again; anyone else is refused. */
  lemma SeatedAnswered(h: Host, u: Up, i: int)
    requires Shape(h) && u.body.Join? && u.id != 0 && u.body.name != [] && Holds(h, u.id, i)
    requires forall j :: 0 <= j < i ==> h.room.members[j].id != u.id
    ensures Removed(h, u.id) ==> RefusedWith(h, u, STALE)
    ensures !Removed(h, u.id) && !Suits(h, u) ==> RefusedWith(h, u, IDENTITY)
    ensures !Removed(h, u.id) && Suits(h, u) && u.body.password != h.password ==> RefusedWith(h, u, PASSWORD)
    ensures !Removed(h, u.id) && Suits(h, u) && u.body.password == h.password ==>
              && (h.room.starting != 0 ==> RefusedWith(h, u, STARTED))
              && (h.room.starting == 0 && (i == h.room.hostSlot || h.links[i].addr != u.source) ==>
                    RefusedWith(h, u, IDENTITY))
              && (h.room.starting == 0 && i != h.room.hostSlot && h.links[i].addr == u.source ==> forall due ::
                    HostReceive(h, u, due)
                    == HostOut(h, [Down(u.source, h.room.epoch, h.links[i].id, h.links[i].sequence, h.room.revision,
                                        Roster(h.room))]))
  {
    assert Removed(h, u.id) <==> IsRetired(h, u.id) by { RemovedIff(h, u.id); }
    hide IsRetired, Removed, AddressTaken;
    assert SlotOf(h.room, u.id) == i;
  }

  // ---- where a seat comes from --------------------------------------------

  /** The event is a JOIN that fits the host `h`, and gives a seat to this member at this address. */
  ghost predicate Invites(h: Host, e: HostEvent, m: Member, a: Address)
  {
    && e.Receive? && e.u.body.Join? && m == Member(e.u.id, e.u.body.name) && a == e.u.source
    && e.u.body.password == h.password && Suits(h, e.u)
  }

  /** Some guest seat holds this member at this address. */
  ghost predicate Sits(h: Host, m: Member, a: Address)
    requires Shape(h)
  {
    exists j :: 0 <= j < SEATS && j != h.room.hostSlot && h.room.members[j] == m && h.links[j].addr == a
  }

  /** A seat kept: the same member at the same address, in this seat or another. */
  ghost predicate SeatsKept(h: Host, h': Host)
    requires Shape(h) && Shape(h')
  {
    forall i :: 0 <= i < SEATS && i != h'.room.hostSlot && h'.room.members[i].id != 0 ==>
      Sits(h, h'.room.members[i], h'.links[i].addr)
  }

  lemma SameSeatsKept(h: Host, h': Host)
    requires Shape(h) && Shape(h') && h'.room.members == h.room.members && h'.room.hostSlot == h.room.hostSlot
    requires forall i :: 0 <= i < SEATS ==> h'.links[i].addr == h.links[i].addr
    ensures SeatsKept(h, h')
  {
    forall i | 0 <= i < SEATS && i != h'.room.hostSlot && h'.room.members[i].id != 0
      ensures Sits(h, h'.room.members[i], h'.links[i].addr)
    {
      assert h.room.members[i] == h'.room.members[i];
    }
  }

  lemma MoveSeatsKept(h: Host, from: int, to: int)
    requires HostOk(h)
    ensures SeatsKept(h, MoveMember(h, from, to).host) && MoveMember(h, from, to).host.password == h.password
  {
    var h' := MoveMember(h, from, to).host;
    forall i | 0 <= i < SEATS && i != h'.room.hostSlot && h'.room.members[i].id != 0
      ensures Sits(h, h'.room.members[i], h'.links[i].addr)
    {
      var j := if h' != h && i == to then from else i;
      assert h.room.members[j] == h'.room.members[i] && h.links[j].addr == h'.links[i].addr;
    }
  }

  lemma RemoveSeatsKept(h: Host, slot: nat, reason: int)
    requires Shape(h) && slot < SEATS
    ensures var h' := RemoveMember(h, slot, reason).host; SeatsKept(h, h') && h'.password == h.password
  {
    var h' := RemoveMember(h, slot, reason).host;
    forall i | 0 <= i < SEATS && i != h'.room.hostSlot && h'.room.members[i].id != 0
      ensures Sits(h, h'.room.members[i], h'.links[i].addr)
    {
      assert h.room.members[i] == h'.room.members[i];
    }
  }

  lemma ApplyOpSeats(h: Host, slot: nat, u: Up)
    requires Shape(h) && slot < SEATS && u.body.Op?
    ensures var h' := ApplyOp(h, slot, u);
            || h' == MoveMember(h, slot, u.body.c).host
            || (h'.room.members == h.room.members && h'.room.hostSlot == h.room.hostSlot && h'.links == h.links
                && h'.password == h.password)
  {
    hide MoveMember;
  }

  lemma OpSeatsKept(h: Host, slot: nat, u: Up)
    requires HostOk(h) && slot < h.room.maxSlots && h.links[slot].id != 0 && u.body.Op?
    ensures var h' := HostOp(h, slot, u).host; SeatsKept(h, h') && h'.password == h.password
  {
    OkShape(h);
    hide ApplyOp, MoveMember, SeatsKept, SlotOf, HostOk;
    var h' := HostOp(h, slot, u).host;
    if h' == h {
      SameSeatsKept(h, h);
    } else {
      var l := h.links[slot].(sequence := u.sequence);
      var h1 := h.(links := h.links[slot := l]);
      LinkUpdateOk(h, slot, l);
      ApplyOpSeats(h1, slot, u);
      SameSeatsKept(h1, h1);
      if h' == MoveMember(h1, slot, u.body.c).host {
        MoveSeatsKept(h1, slot, u.body.c);
      } else {
        SameSeatsKept(h1, h');
      }
      SeatsKeptOn(h, h1, h');
    }
  }

  lemma SeatsKeptOn(h: Host, h1: Host, h': Host)
    requires Shape(h) && Shape(h1) && Shape(h') && SeatsKept(h1, h')
    requires h1.room == h.room && forall i :: 0 <= i < SEATS ==> h1.links[i].addr == h.links[i].addr
    ensures SeatsKept(h, h')
  {
    forall i | 0 <= i < SEATS && i != h'.room.hostSlot && h'.room.members[i].id != 0
      ensures Sits(h, h'.room.members[i], h'.links[i].addr)
    {
      assert Sits(h1, h'.room.members[i], h'.links[i].addr);
    }
  }

  lemma JoinSeats(h: Host, u: Up, due: bool, i: nat)
    requires HostOk(h) && u.body.Join? && i < SEATS
    requires var h' := HostReceive(h, u, due).host; i != h'.room.hostSlot && h'.room.members[i].id != 0
    ensures var h' := HostReceive(h, u, due).host;
            && h'.password == h.password
            && (Invites(h, Receive(u, due), h'.room.members[i], h'.links[i].addr)
                || Sits(h, h'.room.members[i], h'.links[i].addr))
  {
    hide IsRetired, AddressTaken, SlotOf;
    var h' := HostReceive(h, u, due).host;
    if h'.room.members[i] == h.room.members[i] && h'.links[i].addr == h.links[i].addr {
      assert Sits(h, h'.room.members[i], h'.links[i].addr);
    }
  }

  lemma ReceiveSeatsKept(h: Host, u: Up, due: bool)
    requires HostOk(h) && !u.body.Join? && u.source != 0
    ensures var h' := HostReceive(h, u, due).host; SeatsKept(h, h') && h'.password == h.password
  {
    var slot := SlotOf(h.room, u.id);
    hide HostOp, RemoveMember, SeatsKept, SlotOf, RetiredFrom;
    var h' := HostReceive(h, u, due).host;
    if Owns(h, u) && u.body.Op? {
      OwnedLinked(h, u);
      OpSeatsKept(h, slot, u);
      if h' == h { SameSeatsKept(h, h); }
    } else if Owns(h, u) && u.body.Leave? {
      RemoveSeatsKept(h, slot, CLOSED);
      if h' == h { SameSeatsKept(h, h); }
    } else {
      SameSeatsKept(h, h');
    }
  }

  lemma OwnedLinked(h: Host, u: Up)
    requires HostOk(h) && Owns(h, u)
    ensures var slot := SlotOf(h.room, u.id); slot < h.room.maxSlots && h.links[slot].id == u.id
    ensures u.source != 0 ==> h.links[SlotOf(h.room, u.id)].id != 0
  {
  }

  /** After any host step every guest seat was there before, with its owner and address, or was just given to a
      JOIN that fits. */
  lemma StepKeepsSeats(h: Host, e: HostEvent, i: nat)
    requires HostOk(h) && i < SEATS && (e.Receive? ==> e.u.source != 0)
    requires var h' := HostStep(h, e).host; i != h'.room.hostSlot && h'.room.members[i].id != 0
    ensures var h' := HostStep(h, e).host;
            && h'.password == h.password
            && (Invites(h, e, h'.room.members[i], h'.links[i].addr) || Sits(h, h'.room.members[i], h'.links[i].addr))
  {
    hide HostStep, SeatsKept, Sits, Invites;
    if e.Receive? && e.u.body.Join? {
      JoinStep(h, e.u, e.due);
      JoinSeats(h, e.u, e.due, i);
    } else {
      OtherSeatsKept(h, e);
      Kept(h, HostStep(h, e).host, i);
    }
  }

  lemma JoinStep(h: Host, u: Up, due: bool)
    requires Shape(h)
    ensures HostStep(h, Receive(u, due)) == HostReceive(h, u, due)
  {
  }

  lemma OtherSeatsKept(h: Host, e: HostEvent)
    requires HostOk(h) && (e.Receive? ==> e.u.source != 0 && !e.u.body.Join?)
    ensures var h' := HostStep(h, e).host; SeatsKept(h, h') && h'.password == h.password
  {
    OkShape(h);
    hide SeatsKept, HostOk;
    if e.Receive? || e.Expire? || e.Kick? || e.Move? {
      hide HostReceive, HostExpire, HostKick, MoveMember;
      match e
      case Receive(u, due) => ReceiveSeatsKept(h, u, due);
      case Expire(slot) => DepartSeatsKept(h, slot);
      case Kick(slot) => DepartSeatsKept(h, slot);
      case Move(from, to) => MoveSeatsKept(h, from, to);
    } else {
      hide HostStep;
      QuietStep(h, e);
      SameSeatsKept(h, HostStep(h, e).host);
    }
  }

  /** Any other step leaves the seats and their addresses alone. */
  lemma QuietStep(h: Host, e: HostEvent)
    requires Shape(h) && !e.Receive? && !e.Expire? && !e.Kick? && !e.Move?
    ensures var h' := HostStep(h, e).host;
            && h'.room.members == h.room.members && h'.room.hostSlot == h.room.hostSlot && h'.links == h.links
            && h'.password == h.password
  {
    hide SlotOf, AllReady, AllAcked, LaunchReady, ValidRoom, States, Closes, Echoes, Printable;
  }

  lemma DepartSeatsKept(h: Host, slot: int)
    requires HostOk(h)
    ensures SeatsKept(h, HostExpire(h, slot).host) && HostExpire(h, slot).host.password == h.password
    ensures SeatsKept(h, HostKick(h, slot).host) && HostKick(h, slot).host.password == h.password
  {
    hide RemoveMember, SeatsKept;
    SameSeatsKept(h, h);
    if 0 <= slot < SEATS {
      RemoveSeatsKept(h, slot, TIMEOUT);
      RemoveSeatsKept(h, slot, KICKED);
    }
  }

  lemma Kept(h: Host, h': Host, i: nat)
    requires Shape(h) && Shape(h') && SeatsKept(h, h') && i < SEATS
    requires i != h'.room.hostSlot && h'.room.members[i].id != 0
    ensures Sits(h, h'.room.members[i], h'.links[i].addr)
  {
  }

  /** Every guest seat of every reachable state goes back to a delivered JOIN: with that id, from that address, under
      that name, with the password the host was opened with, and for its game, version and size. */
  lemma {:induction false} SeatWasJoined(h: Host, es: seq<Event>, i: nat) returns (k: nat)
    requires Shape(h) && Opened(h) && i < SEATS
    requires var r := Execute(h, es).host.room; i != r.hostSlot && r.members[i].id != 0
    ensures k < |es| && es[k].AtHost? && Enabled(At(h, es, k), es[k])
    ensures var s := Execute(h, es).host; Invites(h, es[k].he, s.room.members[i], s.links[i].addr)
  {
    hide Turn, Inv, Execute, Invites, Sits, Opened;
    if es == [] {
      ExecuteNone(h);
      OpenedAlone(h, i);
    } else {
      var n := |es| - 1;
      var front := es[..n];
      RunInv(h, front);
      ConstantsKept(h, front);
      var s, s' := Execute(h, front), Execute(h, es);
      LastTurn(h, es);
      TurnSeats(s, es[n], i);
      if Enabled(s, es[n]) && es[n].AtHost?
         && Invites(s.host, es[n].he, s'.host.room.members[i], s'.host.links[i].addr) {
        InvitesAlike(s.host, h, es[n].he, s'.host.room.members[i], s'.host.links[i].addr);
        k := n;
      } else {
        var j := SeatOf(s.host, s'.host.room.members[i], s'.host.links[i].addr);
        k := SeatWasJoined(h, front, j);
        assert front[..k] == es[..k];
      }
    }
  }

  lemma SeatOf(h: Host, m: Member, a: Address) returns (j: nat)
    requires Shape(h) && Sits(h, m, a)
    ensures j < SEATS && j != h.room.hostSlot && h.room.members[j] == m && h.links[j].addr == a
  {
    var k :| 0 <= k < SEATS && k != h.room.hostSlot && h.room.members[k] == m && h.links[k].addr == a;
    j := k;
  }

  lemma OpenedAlone(h: Host, i: nat)
    requires Opened(h) && i < SEATS
    ensures |h.room.members| == SEATS && (i != h.room.hostSlot ==> h.room.members[i].id == 0)
  {
  }

  lemma InvitesAlike(h: Host, h0: Host, e: HostEvent, m: Member, a: Address)
    requires Invites(h, e, m, a) && h.password == h0.password && Fixed(h0.room, h.room)
    ensures Invites(h0, e, m, a)
  {
  }

  lemma TurnSeats(s: System, e: Event, i: nat)
    requires Inv(s) && i < SEATS
    requires var r := Turn(s, e).host.room; i != r.hostSlot && r.members[i].id != 0
    ensures var h' := Turn(s, e).host;
            || (Enabled(s, e) && e.AtHost? && Invites(s.host, e.he, h'.room.members[i], h'.links[i].addr))
            || Sits(s.host, h'.room.members[i], h'.links[i].addr)
  {
    hide HostStep, GuestStep, GuestOpen, Protocol, Invites;
    if Enabled(s, e) && e.AtHost? {
      StepKeepsSeats(s.host, e.he, i);
    } else {
      assert s.host.room.members[i] == Turn(s, e).host.room.members[i];
    }
  }

  /** The password, the game, the version and the size of a room are those it was opened with. */
  lemma {:induction false} ConstantsKept(h: Host, es: seq<Event>)
    requires Shape(h) && Opened(h)
    ensures var s := Execute(h, es); s.host.password == h.password && s.host.id == h.id && Fixed(h.room, s.host.room)
  {
    hide Turn, Execute, Inv;
    if es == [] {
      ExecuteNone(h);
    } else {
      var front := es[..|es| - 1];
      ConstantsKept(h, front);
      RunInv(h, front);
      LastTurn(h, es);
      TurnConstants(Execute(h, front), es[|es| - 1]);
    }
  }

  lemma TurnConstants(s: System, e: Event)
    requires Inv(s)
    ensures var h' := Turn(s, e).host;
            h'.password == s.host.password && h'.id == s.host.id && Fixed(s.host.room, h'.room)
  {
    hide HostStep, GuestStep, GuestOpen, Protocol;
    if Enabled(s, e) && e.AtHost? {
      StepFixed(s.host, e.he);
      StepPassword(s.host, e.he);
    }
  }

  lemma StepPassword(h: Host, e: HostEvent)
    requires HostOk(h) && (e.Receive? ==> e.u.source != 0)
    ensures HostStep(h, e).host.password == h.password
  {
    OkShape(h);
    hide HostStep, HostOk, SeatsKept;
    if e.Receive? && e.u.body.Join? {
      JoinStep(h, e.u, e.due);
      JoinPassword(h, e.u, e.due);
    } else {
      OtherSeatsKept(h, e);
    }
  }

  lemma JoinPassword(h: Host, u: Up, due: bool)
    requires Shape(h) && u.body.Join?
    ensures HostReceive(h, u, due).host.password == h.password
  {
    hide IsRetired, AddressTaken, SlotOf;
  }

  // ---- what a joined guest must have known --------------------------------

  /** What a guest was opened with. */
  ghost function Card(g: Guest): UpBody
  {
    Join(g.game, g.version, g.password, g.name, g.supported)
  }

  /** A joined guest sees itself in its roster, and a JOIN on the network says what its guest was opened with. */
  ghost predicate TrueCards(s: System)
  {
    && (forall id :: id in s.guests && s.guests[id].joined ==> SlotOf(s.guests[id].room, id) >= 0)
    && (forall u :: u in s.up && u.body.Join? ==> u.id in s.guests && u.body == Card(s.guests[u.id]))
  }

  lemma GuestCards(g: Guest, e: GuestEvent)
    ensures var o := GuestStep(g, e);
            && Card(o.guest) == Card(g) && o.guest.id == g.id
            && (forall u :: u in o.sent && u.body.Join? ==> u.body == Card(g) && u.id == g.id)
  {
    hide ValidRoom, SlotOf, Printable, Queued;
  }

  lemma GuestSeesItself(g: Guest, e: GuestEvent)
    requires g.joined ==> SlotOf(g.room, g.id) >= 0
    ensures var g' := GuestStep(g, e).guest; g'.joined ==> SlotOf(g'.room, g.id) >= 0
  {
    hide ValidRoom, SlotOf, Printable, Queued;
  }

  lemma TurnCards(s: System, e: Event)
    requires Inv(s) && TrueCards(s)
    ensures TrueCards(Turn(s, e))
  {
    hide HostStep, GuestStep, Protocol, HostOk, SlotOf, Card;
    if Enabled(s, e) && e.AtGuest? {
      GuestCards(s.guests[e.id], e.ge);
      GuestSeesItself(s.guests[e.id], e.ge);
    }
  }

  lemma {:induction false} RunCards(h: Host, es: seq<Event>)
    requires Shape(h) && Opened(h)
    ensures TrueCards(Execute(h, es))
  {
    hide Turn, Execute, Inv, TrueCards;
    if es == [] {
      ExecuteNone(h);
      assert TrueCards(Initial(h)) by { NoCards(h); }
    } else {
      var front := es[..|es| - 1];
      RunCards(h, front);
      RunInv(h, front);
      LastTurn(h, es);
      TurnCards(Execute(h, front), es[|es| - 1]);
    }
  }

  lemma NoCards(h: Host)
    ensures TrueCards(Initial(h))
  {
  }

  /** Every guest was opened at some event, with what it still carries. */
  lemma {:induction false} WasOpened(h: Host, es: seq<Event>, id: u32) returns (k: nat)
    requires Shape(h) && Opened(h) && id in Execute(h, es).guests
    ensures var g := Execute(h, es).guests[id];
            k < |es| && es[k] == Opens(id, g.addr, g.game, g.version, g.password, g.name, g.supported)
  {
    hide Turn, Execute, Inv;
    if es == [] {
      ExecuteNone(h);
    } else {
      var n := |es| - 1;
      RunInv(h, es[..n]);
      LastTurn(h, es);
      TurnOpens(Execute(h, es[..n]), es[n], id);
      if id in Execute(h, es[..n]).guests { k := WasOpened(h, es[..n], id); } else { k := n; }
    }
  }

  lemma TurnOpens(s: System, e: Event, id: u32)
    requires Inv(s) && id in Turn(s, e).guests
    ensures var g := Turn(s, e).guests[id];
            if id in s.guests then Card(g) == Card(s.guests[id]) && g.addr == s.guests[id].addr
            else e == Opens(id, g.addr, g.game, g.version, g.password, g.name, g.supported)
  {
    hide HostStep, GuestStep, Protocol, HostOk;
    if Enabled(s, e) && e.AtGuest? && e.id == id {
      GuestCards(s.guests[id], e.ge);
      GuestSteps(s.guests[id], e.ge);
    }
  }

  /** Nobody who was not invited ever joins: a joined guest was opened with the host's password, for its game and
      version, and with room for its seats. */
  lemma OnlyInvitedJoin(h: Host, es: seq<Event>, id: u32) returns (k: nat)
    requires Shape(h) && Opened(h)
    requires var s := Execute(h, es); Live(s.host) && id in s.guests && s.guests[id].joined
    ensures k < |es| && es[k].Opens? && es[k].id == id
    ensures es[k].password == h.password && es[k].game == h.room.game && es[k].version == h.room.version
    ensures es[k].supported >= h.room.maxSlots
  {
    hide Turn, Execute, Opened, Invites;
    RunInv(h, es);
    RunCards(h, es);
    var s := Execute(h, es);
    var at := GuestHoldsPast(h, es, id);
    var past := es[..at];
    RunInv(h, past);
    ConstantsKept(h, past);
    var i := SlotOf(s.guests[id].room, id);
    assert Execute(h, past).host.room == s.guests[id].room && i != s.guests[id].room.hostSlot;
    var j := SeatWasJoined(h, past, i);
    assert past[..j] == es[..j];
    RunCards(h, es[..j]);
    var u := InvitingUp(h, At(h, es, j), es[j], id);
    RunGrowsUp(h, es, j, u);
    k := WasOpened(h, es, id);
  }

  lemma InvitingUp(h: Host, s: System, e: Event, id: u32) returns (u: Up)
    requires e.AtHost? && Enabled(s, e)
    requires exists name, a :: Invites(h, e.he, Member(id, name), a)
    ensures u in s.up && u.body.Join? && u.id == id && u.body.password == h.password && Suits(h, u)
  {
    u := e.he.u;
  }

  lemma {:induction false} RunGrowsUp(h: Host, es: seq<Event>, j: nat, u: Up)
    requires Shape(h) && j <= |es| && u in At(h, es, j).up
    ensures u in Execute(h, es).up
  {
    hide Turn, Execute;
    if j < |es| {
      var front := es[..|es| - 1];
      assert front[..j] == es[..j];
      RunGrowsUp(h, front, j, u);
      LastTurn(h, es);
      TurnGrowsUp(Execute(h, front), es[|es| - 1]);
    } else {
      assert es[..j] == es;
    }
  }

  lemma TurnGrowsUp(s: System, e: Event)
    requires Shape(s.host)
    ensures s.up <= Turn(s, e).up
  {
    hide HostStep, GuestStep;
  }
}
