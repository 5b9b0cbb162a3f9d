/** Why a guest's stay ended: every CLOSE, and every failure a guest reports, goes back to what somebody did. */
module LanRoomFates {
  import opened Common
  import opened LanRoom
  import opened LanRoomEvolution
  import opened LanRoomHost
  import opened LanRoomProtocol
  import opened LanRoomTheorems
  import opened LanRoomRules
  import LanRoomAdmission

  // ---- the host's side ----------------------------------------------------------

  /** The event ends the stay of this guest at this address: it is put out, or the host closes. */
  ghost predicate Ends(h: Host, e: HostEvent, id: u32, a: Address, reason: int)
    requires Shape(h)
  {
    exists i :: && Linked(h, i) && h.links[i].id == id && h.links[i].addr == a
                && (PutsOut(h, e, i, reason) || (e.Shutdown? && reason == CLOSED))
  }

  lemma DepartureEnds(h: Host, e: HostEvent, i: int, reason: int)
    requires Shape(h) && PutsOut(h, e, i, reason)
    ensures Ends(h, e, h.links[i].id, h.links[i].addr, reason)
  {
  }

  /** A packet of an owner, other than LEAVE, closes nobody. */
  lemma OwnersCloseNobody(h: Host, u: Up, due: bool, i: int, d: Down)
    requires HostOk(h) && From(h, u, i) && !u.body.Leave? && d in HostStep(h, Receive(u, due)).sent
    ensures !d.body.Close?
  {
    FromIsOwner(h, u, i);
    var slot := i;
    hide ValidRoom, LinkTable, NoneRetired, SlotOf, ApplyOp;
    if u.body.ChatRequest? {
      var h1 := h.(links := h.links[slot := h.links[slot].(chatSequence := u.sequence)]);
      EchoesAreEchoes(h1, slot, u.body.text, d);
      hide Broadcast;
    }
  }

  lemma EchoesAreEchoes(h: Host, sender: nat, text: Text, d: Down)
    requires Shape(h) && sender < SEATS && d in Broadcast(h, sender, text).sent
    ensures d.body.ChatEcho?
  {
    if h.chatSequence < U32_MAX {
      var line := ChatLine(h.room.members[sender].id, h.room.members[sender].name, text);
      var h' := h.(chatSequence := h.chatSequence + 1, chat := Queued(h.chat, line));
      AllEchoes(h', line, h.room.maxSlots, d);
    }
  }

  lemma {:induction false} AllEchoes(h: Host, line: ChatLine, n: nat, d: Down)
    requires n <= |h.links| && d in Echoes(h, line, n)
    ensures d.body.ChatEcho?
  {
    if n > 0 && d in Echoes(h, line, n - 1) { AllEchoes(h, line, n - 1, d); }
  }

  /** A CLOSE ends a stay now, or repeats the reason on record for a stay that has ended. */
  lemma ReceiveCloses(h: Host, u: Up, due: bool, d: Down)
    requires HostOk(h) && u.source != 0 && d in HostStep(h, Receive(u, due)).sent && d.body.Close?
    ensures || Ends(h, Receive(u, due), d.id, d.dest, d.body.status)
            || (d.dest != 0
                && exists k :: 0 <= k < RETIRED_MAX && h.retired[k] == RetiredLink(d.id, d.dest, d.body.status))
  {
    if i :| From(h, u, i) {
      if u.body.Leave? {
        DepartureEffect(h, Receive(u, due), i, CLOSED);
        DepartureEnds(h, Receive(u, due), i, CLOSED);
      } else {
        OwnersCloseNobody(h, u, due, i, d);
      }
    } else {
      StrangerClosed(h, u, due, d);
    }
  }

  lemma StrangerClosed(h: Host, u: Up, due: bool, d: Down)
    requires HostOk(h) && u.source != 0 && d in HostStep(h, Receive(u, due)).sent && d.body.Close?
    requires !exists i :: From(h, u, i)
    ensures d.dest != 0 && exists k :: 0 <= k < RETIRED_MAX && h.retired[k] == RetiredLink(d.id, d.dest, d.body.status)
  {
    if !u.body.Join? && Owns(h, u) { OwnerIsFrom(h, u); }
    hide ValidRoom, LinkTable, NoneRetired, SlotOf, IsRetired, AddressTaken, Rejoins, JoinStatus;
    var gone := RetiredFrom(h.retired, u.id, u.source, 0);
    assert !u.body.Join?;
    assert gone >= 0 && h.retired[gone] == RetiredLink(d.id, d.dest, d.body.status);
  }

  lemma StepCloses(h: Host, e: HostEvent, d: Down)
    requires HostOk(h) && (e.Receive? ==> e.u.source != 0) && d in HostStep(h, e).sent && d.body.Close?
    ensures || Ends(h, e, d.id, d.dest, d.body.status)
            || (d.dest != 0
                && exists k :: 0 <= k < RETIRED_MAX && h.retired[k] == RetiredLink(d.id, d.dest, d.body.status))
  {
    match e
    case Receive(u, due) => ReceiveCloses(h, u, due, d);
    case Kick(i) => LeavesCloses(h, e, d);
    case Expire(i) => LeavesCloses(h, e, d);
    case Shutdown =>
      ShutdownEffect(h, d);
    case Resend => ResendEffect(h, d);
    case Say(text) => if SlotOf(h.room, h.id) >= 0 { SaidCloses(h, text, d); }
    case _ =>
  }

  lemma SaidCloses(h: Host, text: Text, d: Down)
    requires HostOk(h) && d in HostStep(h, Say(text)).sent
    ensures d.body.ChatEcho?
  {
    EchoesAreEchoes(h, SlotOf(h.room, h.id), text, d);
    hide Broadcast, ValidRoom, LinkTable, NoneRetired;
  }

  lemma LeavesCloses(h: Host, e: HostEvent, d: Down)
    requires HostOk(h) && (e.Kick? || e.Expire?) && d in HostStep(h, e).sent && d.body.Close?
    ensures Ends(h, e, d.id, d.dest, d.body.status)
  {
    if i, reason :| PutsOut(h, e, i, reason) {
      DepartureEffect(h, e, i, reason);
      DepartureEnds(h, e, i, reason);
    } else {
      NobodyLeaves(h, e);
    }
  }

  /** The list of removed guests changes only by an event that puts one out. */
  lemma RetiredStep(h: Host, e: HostEvent, k: int)
    requires HostOk(h) && (e.Receive? ==> e.u.source != 0) && 0 <= k < RETIRED_MAX
    ensures var r := HostStep(h, e).host.retired[k];
            r == h.retired[k] || Ends(h, e, r.id, r.addr, r.reason)
  {
    if e.Kick? || e.Expire? || (e.Receive? && e.u.body.Leave?) {
      if i, reason :| PutsOut(h, e, i, reason) {
        DepartureEffect(h, e, i, reason);
        DepartureEnds(h, e, i, reason);
      } else if e.Receive? {
        assert forall i :: !From(h, e.u, i) by {
          forall i ensures !From(h, e.u, i) { assert !PutsOut(h, e, i, CLOSED); }
        }
        StrangersChangeNothing(h, e.u, e.due);
      } else {
        NobodyLeaves(h, e);
      }
    } else {
      RetiredStays(h, e);
    }
  }

  lemma RetiredStays(h: Host, e: HostEvent)
    requires Shape(h) && !e.Kick? && !e.Expire? && !(e.Receive? && e.u.body.Leave?)
    ensures HostStep(h, e).host.retired == h.retired
  {
    if e.Receive? {
      PacketKeepsRetired(h, e.u, e.due);
      hide HostReceive;
    } else {
      hide ValidRoom, SlotOf, AllReady, AllAcked, LaunchReady, States, Closes, Echoes, Printable;
    }
  }

  lemma PacketKeepsRetired(h: Host, u: Up, due: bool)
    requires Shape(h) && !u.body.Leave?
    ensures HostReceive(h, u, due).host.retired == h.retired
  {
    hide SlotOf, Echoes, IsRetired, AddressTaken, RetiredFrom, Rejoins, JoinStatus;
  }

  // ---- whole runs ----------------------------------------------------------------

  /** Every entry in the list of removed guests was put there by an event that put that guest out. */
  lemma {:induction false} RemovalHasCause(h: Host, es: seq<Event>, k: int) returns (n: nat)
    requires Shape(h) && Opened(h) && 0 <= k < RETIRED_MAX && Execute(h, es).host.retired[k].addr != 0
    ensures n < |es| && es[n].AtHost? && Enabled(At(h, es, n), es[n])
    ensures var r := Execute(h, es).host.retired[k]; Ends(At(h, es, n).host, es[n].he, r.id, r.addr, r.reason)
  {
    hide Turn, Execute, Inv, Opened, Ends;
    if es == [] {
      ExecuteNone(h);
      NobodyRemoved(h);
    } else {
      var front, e := es[..|es| - 1], es[|es| - 1];
      RunInv(h, front);
      LastTurn(h, es);
      TurnRetired(Execute(h, front), e, k);
      if Execute(h, es).host.retired[k] == Execute(h, front).host.retired[k] {
        n := RemovalHasCause(h, front, k);
        assert front[..n] == es[..n];
      } else {
        n := |es| - 1;
      }
    }
  }

  lemma NobodyRemoved(h: Host)
    requires Shape(h) && Opened(h)
    ensures forall k :: 0 <= k < RETIRED_MAX ==> h.retired[k].addr == 0
  {
  }

  lemma TurnRetired(s: System, e: Event, k: int)
    requires Inv(s) && 0 <= k < RETIRED_MAX
    ensures var r := Turn(s, e).host.retired[k];
            r == s.host.retired[k] || (e.AtHost? && Enabled(s, e) && Ends(s.host, e.he, r.id, r.addr, r.reason))
  {
    hide HostStep, GuestStep, GuestOpen, Protocol, HostOk, Ends;
    if Enabled(s, e) && e.AtHost? { RetiredStep(s.host, e.he, k); }
  }

  /** Every CLOSE on the network goes back to the event that ended that guest's stay, for that reason: a kick, an
      expiry, its own LEAVE, or the closing of the host. */
  lemma {:induction false} CloseHasCause(h: Host, es: seq<Event>, d: Down) returns (n: nat)
    requires Shape(h) && Opened(h) && d in Execute(h, es).down && d.body.Close?
    ensures n < |es| && es[n].AtHost? && Enabled(At(h, es, n), es[n])
    ensures Ends(At(h, es, n).host, es[n].he, d.id, d.dest, d.body.status)
  {
    hide Turn, Execute, Inv, Opened, Ends;
    if es == [] {
      ExecuteNone(h);
    } else {
      var front, e := es[..|es| - 1], es[|es| - 1];
      RunInv(h, front);
      LastTurn(h, es);
      if d in Execute(h, front).down {
        n := CloseHasCause(h, front, d);
        assert front[..n] == es[..n];
      } else {
        var k := TurnCloses(Execute(h, front), e, d);
        if k < 0 {
          n := |es| - 1;
        } else {
          n := RemovalHasCause(h, front, k);
          assert front[..n] == es[..n];
        }
      }
    }
  }

  lemma TurnCloses(s: System, e: Event, d: Down) returns (k: int)
    requires Inv(s) && d in Turn(s, e).down && d !in s.down && d.body.Close?
    ensures e.AtHost? && Enabled(s, e) && k < RETIRED_MAX
    ensures if k < 0 then Ends(s.host, e.he, d.id, d.dest, d.body.status)
            else d.dest != 0 && s.host.retired[k] == RetiredLink(d.id, d.dest, d.body.status)
  {
    hide HostStep, GuestStep, GuestOpen, Protocol, Ends;
    StepCloses(s.host, e.he, d);
    k := -1;
    if !Ends(s.host, e.he, d.id, d.dest, d.body.status) {
      k :| 0 <= k < RETIRED_MAX && s.host.retired[k] == RetiredLink(d.id, d.dest, d.body.status);
    }
  }

  // ---- refusals --------------------------------------------------------------------

  /** A refusal answers a JOIN that the host refuses with that code. */
  lemma StepRefuses(h: Host, e: HostEvent, d: Down)
    requires HostOk(h) && d in HostStep(h, e).sent && d.body.Nak?
    ensures e.Receive? && e.u.body.Join? && e.u.id == d.id && e.u.source == d.dest && d.body.status < 0
    ensures LanRoomAdmission.RefusedWith(h, e.u, d.body.status)
  {
    match e
    case Receive(u, due) => if !u.body.Join? { PacketsRefuseNobody(h, u, due, d); } else { JoinRefused(h, u, due, d); }
    case Shutdown => ShutdownEffect(h, d);
    case Resend => ResendEffect(h, d);
    case Say(text) => SaidCloses(h, text, d);
    case _ =>
  }

  lemma JoinRefused(h: Host, u: Up, due: bool, d: Down)
    requires Shape(h) && u.body.Join? && d in HostStep(h, Receive(u, due)).sent && d.body.Nak?
    ensures u.id == d.id && u.source == d.dest && d.body.status < 0
    ensures LanRoomAdmission.RefusedWith(h, u, d.body.status)
  {
    hide SlotOf, IsRetired, AddressTaken, Rejoins;
  }

  lemma PacketsRefuseNobody(h: Host, u: Up, due: bool, d: Down)
    requires Shape(h) && !u.body.Join? && d in HostStep(h, Receive(u, due)).sent
    ensures !d.body.Nak?
  {
    hide SlotOf, ApplyOp, RetiredFrom;
    var slot := SlotOf(h.room, u.id);
    if Owns(h, u) && u.body.ChatRequest? && 0 <= slot < SEATS {
      var h1 := h.(links := h.links[slot := h.links[slot].(chatSequence := u.sequence)]);
      hide Broadcast;
      if d in Broadcast(h1, slot, u.body.text).sent { EchoesAreEchoes(h1, slot, u.body.text, d); }
    }
  }

  /** Every refusal on the network goes back to the JOIN it answers. */
  lemma {:induction false} RefusalHasCause(h: Host, es: seq<Event>, d: Down) returns (n: nat)
    requires Shape(h) && Opened(h) && d in Execute(h, es).down && d.body.Nak?
    ensures n < |es| && Enabled(At(h, es, n), es[n]) && Refuses(At(h, es, n).host, es[n], d.id, d.body.status)
    ensures d.body.status < 0
  {
    hide Turn, Execute, Inv, Opened, Refuses;
    if es == [] {
      ExecuteNone(h);
    } else {
      var front, e := es[..|es| - 1], es[|es| - 1];
      RunInv(h, front);
      LastTurn(h, es);
      if d in Execute(h, front).down {
        n := RefusalHasCause(h, front, d);
        assert front[..n] == es[..n];
      } else {
        n := |es| - 1;
        TurnRefuses(Execute(h, front), e, d);
      }
    }
  }

  /** The host refuses a JOIN of this guest with this code. */
  ghost predicate Refuses(h: Host, e: Event, id: u32, code: int)
    requires Shape(h)
  {
    && e.AtHost? && e.he.Receive? && e.he.u.body.Join? && e.he.u.id == id
    && LanRoomAdmission.RefusedWith(h, e.he.u, code)
  }

  lemma TurnRefuses(s: System, e: Event, d: Down)
    requires Inv(s) && d in Turn(s, e).down && d !in s.down && d.body.Nak?
    ensures Enabled(s, e) && Refuses(s.host, e, d.id, d.body.status) && d.body.status < 0
  {
    hide HostStep, GuestStep, GuestOpen, Protocol, LanRoomAdmission.RefusedWith;
    StepRefuses(s.host, e.he, d);
  }

  // ---- a roster never leaves its reader out ------------------------------------------

  /** The roster in a state packet seats the guest it is for. */
  ghost predicate Includes(d: Down)
  {
    IsState(d) ==> exists i :: 0 <= i < |Seats(d.body.room)| && d.body.room.members[i].id == d.id
  }

  lemma StateIncludes(h: Host, i: int)
    requires HostOk(h) && 0 <= i < SEATS && h.links[i].id != 0
    ensures Includes(SendState(h, i))
  {
    assert i < |Seats(h.room)| && h.room.members[i].id == h.links[i].id;
  }

  lemma {:induction false} StatesInclude(h: Host, n: nat, d: Down)
    requires HostOk(h) && n <= SEATS && d in States(h, n)
    ensures Includes(d)
  {
    hide Includes, SendState;
    if n > 0 {
      if d in States(h, n - 1) { StatesInclude(h, n - 1, d); } else { StateIncludes(h, n - 1); }
    }
  }

  lemma JoinIncludes(h: Host, u: Up, due: bool, d: Down)
    requires HostOk(h) && u.source != 0 && u.body.Join? && d in HostStep(h, Receive(u, due)).sent
    ensures Includes(d)
  {
    JoinOk(h, u);
    if u.id != 0 && u.body.name != [] && Rejoins(h, u) {
      StateIncludes(h, SlotOf(h.room, u.id));
    } else if u.id != 0 && u.body.name != [] && JoinStatus(h, u) == OK {
      StateIncludes(HostJoin(h, u).host, SlotOf(h.room, 0));
    }
    hide HostOk, Rejoins, SlotOf, SendState;
  }

  lemma OpIncludes(h: Host, u: Up, due: bool, d: Down)
    requires HostOk(h) && u.source != 0 && u.body.Op? && d in HostStep(h, Receive(u, due)).sent
    ensures Includes(d)
  {
    hide HostStep, HostOk, SendState, ApplyOp, SlotOf, Includes;
    OkShape(h);
    if i :| From(h, u, i) {
      if Fresh(h, u, i) {
        FreshRequest(h, u, due, i);
        StepOk(h, Receive(u, due));
        OpKeepsId(h.(links := Recorded(h, u, i)), i, u);
        RequesterIncluded(h, HostStep(h, Receive(u, due)).host, u, i);
      } else {
        StaleRequest(h, u, due, i);
        LanRoomRules.StateSent(h, i);
        StateIncludes(h, i);
      }
    } else {
      StrangersChangeNothing(h, u, due);
      ClosesInclude(d);
    }
  }

  lemma ClosesInclude(d: Down)
    requires d.body.Close?
    ensures Includes(d)
  {
  }

  lemma OpKeepsId(h: Host, slot: nat, u: Up)
    requires Shape(h) && slot < SEATS && u.body.Op?
    ensures ApplyOp(h, slot, u).id == h.id
  {
    hide SlotOf;
  }

  /** The answer to a request goes to the seat of its sender. */
  lemma RequesterIncluded(h: Host, h': Host, u: Up, i: int)
    requires HostOk(h) && From(h, u, i) && HostOk(h') && h'.id == h.id
    ensures var at := SlotOf(h'.room, u.id); at >= 0 ==> Includes(SendState(h', at))
  {
    assert h.room.members[i].id == u.id != h.id;
    var at := SlotOf(h'.room, u.id);
    if at >= 0 {
      assert at != h'.room.hostSlot && h'.links[at].id == u.id;
      StateIncludes(h', at);
    }
  }

  lemma StepIncludes(h: Host, e: HostEvent, d: Down)
    requires HostOk(h) && (e.Receive? ==> e.u.source != 0) && d in HostStep(h, e).sent
    ensures Includes(d)
  {
    match e
    case Receive(u, due) =>
      if u.body.Join? { JoinIncludes(h, u, due, d); }
      else if u.body.Op? { OpIncludes(h, u, due, d); }
      else { QuietPackets(h, u, due, d); }
    case Shutdown => ShutdownEffect(h, d);
    case Resend => StatesInclude(h, h.room.maxSlots, d);
    case Say(text) => SaidCloses(h, text, d);
    case _ =>
  }

  lemma QuietPackets(h: Host, u: Up, due: bool, d: Down)
    requires Shape(h) && !u.body.Join? && !u.body.Op? && d in HostStep(h, Receive(u, due)).sent
    ensures !IsState(d)
  {
    hide SlotOf, RetiredFrom;
    var slot := SlotOf(h.room, u.id);
    if Owns(h, u) && u.body.ChatRequest? && 0 <= slot < SEATS {
      var h1 := h.(links := h.links[slot := h.links[slot].(chatSequence := u.sequence)]);
      hide Broadcast;
      if d in Broadcast(h1, slot, u.body.text).sent { EchoesAreEchoes(h1, slot, u.body.text, d); }
    }
  }

  /** In every run, every state packet seats the guest it is for. */
  lemma {:induction false} NeverLeftOut(h: Host, es: seq<Event>, d: Down)
    requires Shape(h) && Opened(h) && d in Execute(h, es).down
    ensures Includes(d)
  {
    hide Turn, Execute, Inv, Opened, Includes;
    if es == [] {
      ExecuteNone(h);
    } else {
      var front, e := es[..|es| - 1], es[|es| - 1];
      RunInv(h, front);
      LastTurn(h, es);
      if d in Execute(h, front).down { NeverLeftOut(h, front, d); } else { TurnIncludes(Execute(h, front), e, d); }
    }
  }

  lemma TurnIncludes(s: System, e: Event, d: Down)
    requires Inv(s) && d in Turn(s, e).down && d !in s.down
    ensures Includes(d)
  {
    hide HostStep, GuestStep, GuestOpen, Protocol, Includes;
    StepIncludes(s.host, e.he, d);
  }

  // ---- the guest's side ----------------------------------------------------------------

  /** How a guest's status can become this one in one event. */
  ghost predicate Turns(g: Guest, e: GuestEvent, status: int)
  {
    || (e.LoseHost? && status == TIMEOUT)
    || (e.Hear? && e.d.id == g.id
        && (|| ((e.d.body.Nak? || e.d.body.Close?) && (e.d.body.status < 0 ==> status == e.d.body.status))
            || (IsState(e.d) && (Contradicts(g, Announced(e.d)) || SlotOf(Announced(e.d), g.id) < 0))))
  }

  lemma StatusStep(g: Guest, e: GuestEvent)
    ensures var status := GuestStep(g, e).guest.status; status == g.status || status >= 0 || Turns(g, e, status)
  {
    hide ValidRoom, SlotOf, Printable, Queued, Contradicts;
  }

  /** What made a guest fail with this status: it lost the host, the host ended its stay, or refused its JOIN. */
  ghost predicate Explains(h: Host, e: Event, id: u32, a: Address, status: int)
    requires Shape(h)
  {
    || (e == AtGuest(id, LoseHost) && status == TIMEOUT)
    || (e.AtHost? && Ends(h, e.he, id, a, status))
    || Refuses(h, e, id, status)
  }

  lemma TurnStatus(s: System, e: Event, id: u32)
    requires Inv(s) && id in Turn(s, e).guests
    requires Turn(s, e).guests[id].status < 0
    requires id in s.guests ==> Turn(s, e).guests[id].status != s.guests[id].status
    ensures id in s.guests && e.AtGuest? && e.id == id && Enabled(s, e)
    ensures Turns(s.guests[id], e.ge, Turn(s, e).guests[id].status) && s.guests[id].id == id
  {
    hide HostStep, GuestStep, Protocol, HostOk, Turns;
    if Enabled(s, e) && e.AtGuest? && e.id == id { StatusStep(s.guests[id], e.ge); }
  }

  lemma StateKeepsStatus(h: Host, es: seq<Event>, id: u32, d: Down)
    requires Shape(h) && Opened(h) && Live(Execute(h, es).host)
    requires id in Execute(h, es).guests && d in Execute(h, es).down && IsState(d) && d.id == id
    ensures !Contradicts(Execute(h, es).guests[id], Announced(d)) && SlotOf(Announced(d), id) >= 0
  {
    hide Execute, SlotOf, Contradicts;
    NeverContradicts(h, es, id, d);
    NeverLeftOut(h, es, d);
    var r := d.body.room;
    var i :| 0 <= i < |Seats(r)| && r.members[i].id == d.id;
    assert Seats(Announced(d)) == Seats(r);
    assert Seats(Announced(d))[i].id == id;
    Slotted(Announced(d), id, i);
  }

  lemma Slotted(r: Room, id: u32, i: int)
    requires 0 <= i < |Seats(r)| && r.members[i].id == id
    ensures SlotOf(r, id) >= 0
  {
  }

  lemma EndsForAReason(h: Host, e: HostEvent, id: u32, a: Address, reason: int)
    requires Shape(h) && Ends(h, e, id, a, reason)
    ensures reason < 0
  {
  }

  /**
   * A guest fails only for a cause: in every run, a negative status of any guest goes back to an event that explains
   * it. Either the guest lost its host, or the host put it out or closed, with that reason, or the host refused its
   * JOIN with that code.
   */
  lemma {:induction false} FailureHasCause(h: Host, es: seq<Event>, id: u32) returns (n: nat)
    requires Shape(h) && Opened(h) && Live(Execute(h, es).host)
    requires id in Execute(h, es).guests && Execute(h, es).guests[id].status < 0
    ensures n < |es| && Enabled(At(h, es, n), es[n])
    ensures var g := Execute(h, es).guests[id]; Explains(At(h, es, n).host, es[n], id, g.addr, g.status)
  {
    hide Turn, Execute, Inv, Opened, Explains, Turns, Live;
    if es == [] {
      ExecuteNone(h);
    } else {
      var front, e := es[..|es| - 1], es[|es| - 1];
      RunInv(h, front);
      LastTurn(h, es);
      assert es[..|es|] == es;
      LiveEarlier(h, es, |es| - 1, |es|);
      var s := Execute(h, front);
      if id in s.guests && s.guests[id].status == Execute(h, es).guests[id].status {
        n := FailureHasCause(h, front, id);
        assert front[..n] == es[..n];
        LanRoomAdmission.TurnOpens(s, e, id);
      } else {
        TurnStatus(s, e, id);
        LanRoomAdmission.TurnOpens(s, e, id);
        n := FailedNow(h, es, id);
      }
    }
  }

  lemma FailedNow(h: Host, es: seq<Event>, id: u32) returns (n: nat)
    requires Shape(h) && Opened(h) && es != [] && Live(Execute(h, es[..|es| - 1]).host)
    requires var s, e := Execute(h, es[..|es| - 1]), es[|es| - 1];
      && id in s.guests && s.guests[id].id == id && e.AtGuest? && e.id == id && Enabled(s, e)
      && id in Execute(h, es).guests && Execute(h, es).guests[id].status < 0
      && Execute(h, es).guests[id].addr == s.guests[id].addr
      && Turns(s.guests[id], e.ge, Execute(h, es).guests[id].status)
    ensures n < |es| && Enabled(At(h, es, n), es[n])
    ensures var g := Execute(h, es).guests[id]; Explains(At(h, es, n).host, es[n], id, g.addr, g.status)
  {
    hide Execute, Opened, Ends, Refuses, Contradicts, SlotOf, Live;
    var front, e := es[..|es| - 1], es[|es| - 1];
    var s := Execute(h, front);
    if e.ge.LoseHost? {
      n := |es| - 1;
    } else {
      var d := e.ge.d;
      if IsState(d) {
        StateKeepsStatus(h, front, id, d);
      } else if d.body.Nak? {
        n := RefusalHasCause(h, front, d);
        assert front[..n] == es[..n];
      } else {
        n := CloseHasCause(h, front, d);
        EndsForAReason(At(h, front, n).host, front[n].he, d.id, d.dest, d.body.status);
        assert front[..n] == es[..n];
      }
    }
  }

  /** What each code of a refusal says about the host that sent it. */
  lemma RefusalMeans(h: Host, u: Up, code: int)
    requires Shape(h) && u.body.Join? && LanRoomAdmission.RefusedWith(h, u, code)
    ensures code in {STALE, IDENTITY, PASSWORD, STARTED, FULL}
    ensures code == STALE ==> LanRoomAdmission.Removed(h, u.id)
    ensures code == PASSWORD ==> u.body.password != h.password
    ensures code == STARTED ==> h.room.starting != 0
    ensures code == FULL ==> forall i :: 0 <= i < h.room.maxSlots ==> h.room.members[i].id != 0
  {
    LanRoomAdmission.RemovedIff(h, u.id);
    var o := HostReceive(h, u, true);
    assert o.sent[0].body == Nak(code);
    hide IsRetired, AddressTaken, LanRoomAdmission.Removed;
  }

  /** The guest's own LEAVE reached the host. */
  ghost predicate Left(e: Event, id: u32)
  {
    e.AtHost? && e.he.Receive? && e.he.u.body.Leave? && e.he.u.id == id
  }

  /**
   * What a guest's status tells it. KICKED: the host kicked the seat it was linked to. TIMEOUT: it lost the host, or
   * the host let it expire. CLOSED: the host closed, or its own LEAVE arrived. PASSWORD: its password is another.
   * STARTED, FULL, STALE: when its JOIN was refused the room was frozen, had no free seat, or had just removed it.
   */
  lemma StatusMeans(h: Host, es: seq<Event>, id: u32) returns (n: nat)
    requires Shape(h) && Opened(h) && Live(Execute(h, es).host)
    requires id in Execute(h, es).guests && Execute(h, es).guests[id].status < 0
    ensures n < |es| && Enabled(At(h, es, n), es[n])
    ensures var g, e, host := Execute(h, es).guests[id], es[n], At(h, es, n).host;
      && (g.status == KICKED ==> exists i :: e == AtHost(Kick(i)) && Linked(host, i) && host.links[i].id == id)
      && (g.status == TIMEOUT ==>
            e == AtGuest(id, LoseHost)
            || exists i :: e == AtHost(Expire(i)) && Linked(host, i) && host.links[i].id == id)
      && (g.status == CLOSED ==> e == AtHost(Shutdown) || Left(e, id))
      && (g.status == PASSWORD ==> g.password != h.password)
      && (g.status == STARTED ==> host.room.starting != 0)
      && (g.status == FULL ==> forall i :: 0 <= i < host.room.maxSlots ==> host.room.members[i].id != 0)
      && (g.status == STALE ==> LanRoomAdmission.Removed(host, id))
      && g.status in {KICKED, TIMEOUT, CLOSED, PASSWORD, STARTED, FULL, STALE, IDENTITY}
  {
    hide Execute, Opened, Explains, Ends, Refuses, Live, LanRoomAdmission.Removed;
    n := FailureHasCause(h, es, id);
    var g, e, host := Execute(h, es).guests[id], es[n], At(h, es, n).host;
    ExplanationMeans(host, e, id, g.addr, g.status);
    if Refuses(host, e, id, g.status) { RefusedCard(h, es, n, id, g.status); }
  }

  lemma ExplanationMeans(h: Host, e: Event, id: u32, a: Address, status: int)
    requires Shape(h) && Explains(h, e, id, a, status)
    ensures status == KICKED ==> exists i :: e == AtHost(Kick(i)) && Linked(h, i) && h.links[i].id == id
    ensures status == TIMEOUT ==>
              e == AtGuest(id, LoseHost) || exists i :: e == AtHost(Expire(i)) && Linked(h, i) && h.links[i].id == id
    ensures status == CLOSED ==> e == AtHost(Shutdown) || Left(e, id)
    ensures status == STARTED ==> h.room.starting != 0
    ensures status == FULL ==> forall i :: 0 <= i < h.room.maxSlots ==> h.room.members[i].id != 0
    ensures status == STALE ==> LanRoomAdmission.Removed(h, id)
    ensures status == PASSWORD ==> Refuses(h, e, id, status)
    ensures status in {KICKED, TIMEOUT, CLOSED, PASSWORD, STARTED, FULL, STALE, IDENTITY}
  {
    hide LanRoomAdmission.Removed, LanRoomAdmission.RefusedWith;
    if Refuses(h, e, id, status) { RefusalMeans(h, e.he.u, status); }
  }

  /** A refused JOIN carried what its guest was opened with. */
  lemma RefusedCard(h: Host, es: seq<Event>, n: nat, id: u32, code: int)
    requires Shape(h) && Opened(h) && n < |es| && Enabled(At(h, es, n), es[n])
    requires id in Execute(h, es).guests && Refuses(At(h, es, n).host, es[n], id, code)
    ensures code == PASSWORD ==> Execute(h, es).guests[id].password != h.password
  {
    hide Execute, Opened, LanRoomAdmission.RefusedWith;
    var u := es[n].he.u;
    RefusalMeans(At(h, es, n).host, u, code);
    LanRoomAdmission.RunGrowsUp(h, es, n, u);
    LanRoomAdmission.RunCards(h, es);
    LanRoomAdmission.ConstantsKept(h, es[..n]);
  }
}
