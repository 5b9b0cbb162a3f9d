/** The waiting-room peers as objects updated in place, each method proved against its function in LanRoom. */
module LanRoomPeer {
  import opened Common
  import opened LanRoom

  /** The outcome of a sequence of host events, and everything sent along the way. */
  function HostRun(h: Host, es: seq<HostEvent>): (o: HostOut)
    requires Shape(h)
    ensures Shape(o.host)
  {
    if es == [] then HostOut(h, [])
    else
      var p := HostRun(h, es[..|es| - 1]);
      var o := HostStep(p.host, es[|es| - 1]);
      HostOut(o.host, p.sent + o.sent)
  }

  lemma HostRunStep(h: Host, es: seq<HostEvent>, e: HostEvent)
    requires Shape(h)
    ensures var p := HostRun(h, es);
            var o := HostStep(p.host, e);
            HostRun(h, es + [e]) == HostOut(o.host, p.sent + o.sent)
  {
    assert (es + [e])[..|es|] == es;
  }

  /** The seats below `n` that hold a member. */
  function OccupiedBelow(r: Room, n: nat): set<nat>
    requires n <= |r.members|
  {
    set i: nat | i < n && r.members[i].id != 0
  }

  // ---- what one pump does, as events --------------------------------------

  /** The events of the first packets of `inbox`, in order. */
  function Drained(inbox: seq<(Up, bool)>, n: nat): seq<HostEvent>
    requires n <= |inbox|
  {
    seq(n, i requires 0 <= i < n => Receive(inbox[i].0, inbox[i].1))
  }

  /** One time-out per silent linked seat below `n`, in seat order. */
  function Silent(ls: seq<Link>, stale: set<int>, n: nat): seq<HostEvent>
    requires n <= |ls|
  {
    if n == 0 then []
    else Silent(ls, stale, n - 1) + if ls[n - 1].id != 0 && n - 1 in stale then [Expire(n - 1)] else []
  }

  function Expired(h: Host, stale: set<int>): seq<HostEvent>
    requires Shape(h)
  {
    if h.room.starting != 0 then [] else Silent(h.links, stale, h.room.maxSlots)
  }

  /** A start is due but the session number drawn for it cannot be used. */
  predicate DrawRefused(h: Host, session: u32)
    requires Shape(h)
  {
    h.wantStart && AllAcked(h) && AllReady(h.room) && (session == 0 || session == h.room.session)
  }

  function Continued(h: Host, session: u32, startTimedOut: bool, resend: bool): seq<HostEvent>
    requires Shape(h)
  {
    var begun := HostBegin(h, session);
    if DrawRefused(h, session) then [Begin(session)]
    else if begun.room.starting != 0 && startTimedOut && !LaunchReady(begun) then [Begin(session), GiveUp]
    else if resend then [Begin(session), Resend]
    else [Begin(session)]
  }

  /** The whole pump: at most 256 packets, the time-outs, then the start block and the resend. */
  function Pumped(h: Host, inbox: seq<(Up, bool)>, stale: set<int>, session: u32, startTimedOut: bool,
                  resend: bool): seq<HostEvent>
    requires Shape(h)
  {
    if h.status < 0 then []
    else
      var drained := Drained(inbox, if |inbox| < 256 then |inbox| else 256);
      var h1 := HostRun(h, drained).host;
      if h1.status < 0 then drained
      else
        var expired := Expired(h1, stale);
        drained + expired + Continued(HostRun(h1, expired).host, session, startTimedOut, resend)
  }

  class HostPeer {
    const id: u32
    const password: Text
    var room: Room
    var links: seq<Link>
    var retired: seq<RetiredLink>
    var retiredAt: nat
    var status: int
    var wantStart: bool
    var chatSequence: u32
    var chat: seq<ChatLine>
    var outbox: seq<Down>

    function View(): Host
      reads this
    {
      Host(id, room, links, retired, retiredAt, status, wantStart, password, chatSequence, chat)
    }

    /** rnet_lan_room_host_open after its configuration was accepted. */
    constructor (id: u32, config: Room, password: Text)
      requires HostOpen(id, config, password).Some?
      ensures Some(View()) == HostOpen(id, config, password) && outbox == []
    {
      this.id, this.password := id, password;
      var empty := [NO_MEMBER, NO_MEMBER, NO_MEMBER, NO_MEMBER];
      room := config.(members := empty[config.hostSlot := Member(id, config.members[config.hostSlot].name)],
                      epoch := id, revision := 1, configuration := 1, ready := {}, session := 0, starting := 0);
      links := seq(SEATS, _ => NO_LINK);
      retired := seq(RETIRED_MAX, _ => RetiredLink(0, 0, 0));
      retiredAt, status, wantStart, chatSequence, chat, outbox := 0, OK, false, 0, [], [];
    }

    method FindSlot(id: u32) returns (s: int)
      requires Shape(View())
      ensures s == SlotOf(room, id)
    {
      var i := 0;
      while i < room.maxSlots
        invariant 0 <= i <= room.maxSlots
        invariant forall k :: 0 <= k < i ==> room.members[k].id != id
      {
        if room.members[i].id == id { return i; }
        i := i + 1;
      }
      return -1;
    }

    /** rnet_lan_room_all_ready: counts members and compares the masks. */
    method IsAllReady() returns (b: bool)
      requires Shape(View())
      ensures b == AllReady(room)
    {
      var n, missing, i := 0, false, 0;
      while i < room.maxSlots
        invariant 0 <= i <= room.maxSlots
        invariant n == |OccupiedBelow(room, i)|
        invariant missing <==> !(OccupiedBelow(room, i) <= room.ready)
      {
        if room.members[i].id != 0 {
          n := n + 1;
          if i !in room.ready { missing := true; }
          assert OccupiedBelow(room, i + 1) == OccupiedBelow(room, i) + {i};
        } else {
          assert OccupiedBelow(room, i + 1) == OccupiedBelow(room, i);
        }
        i := i + 1;
      }
      assert OccupiedBelow(room, i) == Occupied(room);
      return n >= 2 && !missing;
    }

    method Send(d: Down)
      modifies `outbox
      ensures outbox == old(outbox) + [d]
    {
      outbox := outbox + [d];
    }

    method MarkChanged()
      modifies `room, `status, `wantStart
      ensures View() == Changed(old(View()))
    {
      if room.revision == U32_MAX { status := CLOSED; return; }
      room := room.(revision := room.revision + 1);
      wantStart := false;
    }

    method MarkConfigurationChanged()
      modifies `room, `status, `wantStart
      ensures View() == ConfigurationChanged(old(View()))
    {
      MarkChanged();
      room := room.(configuration := room.revision);
      room := room.(ready := {});
    }

    method Remove(slot: nat, reason: int)
      requires Shape(View()) && slot < SEATS
      modifies this
      ensures View() == RemoveMember(old(View()), slot, reason).host
      ensures outbox == old(outbox) + RemoveMember(old(View()), slot, reason).sent
    {
      hide ConfigurationChanged;
      retired := retired[retiredAt := RetiredLink(links[slot].id, links[slot].addr, reason)];
      retiredAt := (retiredAt + 1) % RETIRED_MAX;
      Send(SendSimple(View(), links[slot].addr, links[slot].id, Close(reason)));
      links := links[slot := NO_LINK];
      room := room.(members := room.members[slot := NO_MEMBER], ready := room.ready - {slot});
      room := room.(starting := 0, session := 0);
      MarkConfigurationChanged();
    }

    method MoveSeat(from: int, to: int) returns (rc: int)
      requires Shape(View())
      modifies this
      ensures View() == MoveMember(old(View()), from, to).host && rc == MoveMember(old(View()), from, to).status
      ensures outbox == old(outbox)
    {
      if room.starting != 0 { return STARTED; }
      if from < 0 || from >= room.maxSlots || to < 0 || to >= room.maxSlots || room.members[from].id == 0 {
        return ARGUMENT;
      }
      if from == to { return OK; }
      if room.members[to].id != 0 { return OCCUPIED; }
      room := room.(members := room.members[to := room.members[from]]);
      room := room.(members := room.members[from := NO_MEMBER]);
      links := links[to := links[from]];
      links := links[from := NO_LINK];
      if room.hostSlot == from { room := room.(hostSlot := to); }
      MarkConfigurationChanged();
      return OK;
    }

    method Say(sender: nat, text: Text) returns (rc: int)
      requires Shape(View()) && sender < SEATS
      modifies this
      ensures View() == Broadcast(old(View()), sender, text).host
      ensures outbox == old(outbox) + Broadcast(old(View()), sender, text).sent
      ensures rc == if old(chatSequence) == U32_MAX then ARGUMENT else OK
    {
      rc := OK;
      if chatSequence == U32_MAX { return ARGUMENT; }
      var line := ChatLine(room.members[sender].id, room.members[sender].name, text);
      chatSequence := chatSequence + 1;
      chat := Queued(chat, line);
      ghost var h := View();
      var i := 0;
      while i < room.maxSlots
        invariant 0 <= i <= room.maxSlots && View() == h
        invariant outbox == old(outbox) + Echoes(h, line, i)
      {
        if links[i].id != 0 {
          Send(Down(links[i].addr, room.epoch, links[i].id, chatSequence, room.revision, ChatEcho(line)));
        }
        i := i + 1;
      }
    }

    method WasRetired(id: u32) returns (b: bool)
      requires Shape(View())
      ensures b == IsRetired(View(), id)
    {
      var i := 0;
      b := false;
      while i < RETIRED_MAX
        invariant 0 <= i <= RETIRED_MAX
        invariant b <==> exists k :: 0 <= k < i && retired[k].id == id
      {
        if retired[i].id == id { b := true; }
        i := i + 1;
      }
    }

    method AddressInUse(a: Address) returns (b: bool)
      requires Shape(View())
      ensures b == AddressTaken(View(), a)
    {
      var i := 0;
      b := false;
      while i < room.maxSlots
        invariant 0 <= i <= room.maxSlots
        invariant b <==> exists k :: 0 <= k < i && links[k].id != 0 && links[k].addr == a
      {
        if links[i].id != 0 && links[i].addr == a { b := true; }
        i := i + 1;
      }
    }

    /** The JOIN branch of handle_host. */
    method Admit(u: Up)
      requires Shape(View()) && u.body.Join?
      modifies this
      ensures View() == HostJoin(old(View()), u).host
      ensures outbox == old(outbox) + HostJoin(old(View()), u).sent
    {
      var j := u.body;
      var slot := FindSlot(u.id);
      var answer := OK;
      if u.id == 0 || j.name == [] { return; }
      if j.game != room.game || j.version != room.version || j.supported < room.maxSlots { answer := IDENTITY; }
      else if j.password != password { answer := PASSWORD; }
      else if room.starting != 0 { answer := STARTED; }
      var stale := WasRetired(u.id);
      if stale { answer := STALE; }
      if answer == OK && slot >= 0 {
        if slot == room.hostSlot || links[slot].addr != u.source { answer := IDENTITY; }
        else { Send(SendState(View(), slot)); return; }
      }
      if answer == OK {
        var taken := AddressInUse(u.source);
        if taken { answer := IDENTITY; }
      }
      if answer == OK {
        slot := FindSlot(0);
        if slot < 0 { answer := FULL; }
      }
      if answer != OK { Send(SendSimple(View(), u.source, u.id, Nak(answer))); return; }
      SeatGuest(slot, u.id, u.source, j.name);
    }

    method SeatGuest(slot: nat, id: u32, addr: Address, name: Text)
      requires Shape(View()) && slot < SEATS
      modifies this
      ensures View() == Seat(old(View()), slot, id, addr, name)
      ensures outbox == old(outbox) + [SendState(View(), slot)]
    {
      room := room.(members := room.members[slot := Member(id, name)]);
      links := links[slot := links[slot].(id := id)];
      links := links[slot := links[slot].(addr := addr)];
      MarkConfigurationChanged();
      Send(SendState(View(), slot));
    }

    method SetBit(slot: nat, ready: bool)
      modifies this
      ensures View() == SetReadyBit(old(View()), slot, ready) && outbox == old(outbox)
    {
      var before := room.ready;
      if ready { room := room.(ready := room.ready + {slot}); } else { room := room.(ready := room.ready - {slot}); }
      if before != room.ready { MarkChanged(); }
    }

    /** The OP branch of handle_host. */
    method Operate(slot: nat, u: Up)
      requires Shape(View()) && slot < SEATS && u.body.Op?
      modifies this
      ensures View() == HostOp(old(View()), slot, u).host
      ensures outbox == old(outbox) + HostOp(old(View()), slot, u).sent
    {
      var o := u.body;
      if u.sequence == 0 { return; }
      if u.sequence <= links[slot].sequence { Send(SendState(View(), slot)); return; }
      links := links[slot := links[slot].(sequence := u.sequence)];
      if room.starting != 0 {
      } else if o.op == OP_READY && o.a <= 1 && o.c == room.configuration {
        SetBit(slot, o.a == 1);
      } else if u.revision != room.revision || (o.op == OP_READY && o.c != room.configuration) {
      } else if o.op == OP_MOVE && o.a == slot && o.c < SEATS {
        var _ := MoveSeat(slot, o.c);
      }
      var at := FindSlot(u.id);
      if at >= 0 { Send(SendState(View(), at)); }
    }

    method Acknowledge(slot: nat, revision: u32, start: bool)
      requires Shape(View()) && slot < SEATS
      modifies `links
      ensures View() == HostAck(old(View()), slot, revision, start)
    {
      if revision == room.revision {
        links := links[slot := links[slot].(roomAck := revision)];
        if start && room.starting != 0 { links := links[slot := links[slot].(startAck := revision)]; }
      }
    }

    /** handle_host. */
    method Handle(u: Up, due: bool)
      requires Shape(View())
      modifies this
      ensures View() == HostReceive(old(View()), u, due).host
      ensures outbox == old(outbox) + HostReceive(old(View()), u, due).sent
    {
      if u.body.Join? { Admit(u); return; }
      var slot := FindSlot(u.id);
      if u.epoch == room.epoch && slot < 0 {
        var i := 0;
        while i < RETIRED_MAX
          invariant 0 <= i <= RETIRED_MAX
          invariant forall k :: 0 <= k < i ==> retired[k].id != u.id || retired[k].addr != u.source
        {
          if retired[i].id == u.id && retired[i].addr == u.source {
            if due { Send(SendSimple(View(), u.source, u.id, Close(retired[i].reason))); }
            return;
          }
          i := i + 1;
        }
      }
      if u.epoch != room.epoch || slot < 0 || slot == room.hostSlot || links[slot].addr != u.source { return; }
      match u.body {
        case Ack => Acknowledge(slot, u.revision, false);
        case StartAck => Acknowledge(slot, u.revision, true);
        case Leave => Remove(slot, CLOSED);
        case Op(_, _, _) => Operate(slot, u);
        case ChatRequest(text) =>
          if text != [] && u.sequence != 0 && u.sequence > links[slot].chatSequence {
            links := links[slot := links[slot].(chatSequence := u.sequence)];
            var _ := Say(slot, text);
          }
      }
    }

    // ---- the caller's operations ------------------------------------------

    method SetOwnReady(ready: bool) returns (rc: int)
      requires Shape(View())
      modifies this
      ensures View() == HostSetReady(old(View()), ready) && outbox == old(outbox)
      ensures rc == if old(room).starting != 0 then ARGUMENT else OK
    {
      if room.starting != 0 { return ARGUMENT; }
      var slot := FindSlot(id);
      if slot >= 0 { SetBit(slot, ready); }
      return OK;
    }

    method KickSeat(slot: int) returns (rc: int)
      requires Shape(View())
      modifies this
      ensures View() == HostKick(old(View()), slot).host && outbox == old(outbox) + HostKick(old(View()), slot).sent
      ensures rc == if 0 <= slot < old(room).maxSlots && slot != old(room).hostSlot && old(links)[slot].id != 0
                       && old(room).starting == 0 then OK else ARGUMENT
    {
      if slot < 0 || slot >= room.maxSlots || slot == room.hostSlot || links[slot].id == 0 || room.starting != 0 {
        return ARGUMENT;
      }
      Remove(slot, KICKED);
      return OK;
    }

    method ChangeCaps(caps: Caps) returns (rc: int)
      requires Shape(View())
      modifies this
      ensures View() == HostSetCaps(old(View()), caps) && outbox == old(outbox)
      ensures rc == if old(room).starting == 0 && |caps.mods| < 512 && Printable(caps.mods)
                       && ValidRoom(old(room).(caps := caps)) then OK else ARGUMENT
    {
      if room.starting != 0 { return ARGUMENT; }
      var next := room.(caps := caps);
      if |caps.mods| >= 512 || !Printable(caps.mods) || !ValidRoom(next) { return ARGUMENT; }
      if next != room {
        room := next;
        MarkConfigurationChanged();
      }
      return OK;
    }

    /** rnet_lan_room_send_chat of a host. */
    method SayOwn(text: Text) returns (rc: int)
      requires Shape(View())
      modifies this
      ensures View() == HostSay(old(View()), text).host && outbox == old(outbox) + HostSay(old(View()), text).sent
      ensures rc == OK <==> old(chatSequence) < chatSequence
      ensures rc in {OK, ARGUMENT}
    {
      var slot := FindSlot(id);
      if status < 0 || |text| >= 256 || !Printable(text) || text == [] || slot < 0 { return ARGUMENT; }
      rc := Say(slot, text);
    }

    /** rnet_lan_room_take_chat. */
    method TakeLine() returns (line: Option<ChatLine>)
      modifies `chat
      ensures View() == old(View()).(chat := TakeChat(old(chat)))
      ensures line == if old(chat) == [] then None else Some(old(chat)[0])
    {
      if chat == [] { return None; }
      line := Some(chat[0]);
      chat := chat[1..];
    }

    /** rnet_lan_room_close of a host: a CLOSE to every guest unless the launch is on. */
    method Shut()
      requires Shape(View())
      modifies `outbox
      ensures outbox == old(outbox) + HostStep(old(View()), Shutdown).sent
    {
      var launched := MayLaunch();
      if launched { return; }
      var i := 0;
      while i < room.maxSlots
        invariant 0 <= i <= room.maxSlots && outbox == old(outbox) + Closes(View(), i)
      {
        if links[i].id != 0 { Send(SendSimple(View(), links[i].addr, links[i].id, Close(CLOSED))); }
        i := i + 1;
      }
    }

    method RequestStart() returns (rc: int)
      requires Shape(View())
      modifies `wantStart
      ensures View() == HostStart(old(View()))
      ensures rc == OK <==> room.starting == 0 && AllReady(room)
    {
      var ready := IsAllReady();
      if room.starting != 0 || !ready { return NOT_READY; }
      wantStart := true;
      return OK;
    }

    method MayLaunch() returns (b: bool)
      requires Shape(View())
      ensures b == LaunchReady(View())
    {
      if status < 0 || room.starting == 0 { return false; }
      var i := 0;
      while i < room.maxSlots
        invariant 0 <= i <= room.maxSlots
        invariant forall k :: 0 <= k < i && links[k].id != 0 ==> links[k].startAck == room.revision
      {
        if links[i].id != 0 && links[i].startAck != room.revision { return false; }
        i := i + 1;
      }
      return true;
    }

    // ---- the pump ---------------------------------------------------------

    /** The want_start block. */
    method BeginIfAcked(session: u32) returns (failed: bool)
      requires Shape(View())
      modifies this
      ensures View() == HostBegin(old(View()), session) && outbox == old(outbox)
      ensures failed <==> DrawRefused(old(View()), session)
    {
      failed := false;
      if !wantStart { return; }
      var acked, i := true, 0;
      while i < room.maxSlots
        invariant 0 <= i <= room.maxSlots
        invariant acked <==> forall k :: 0 <= k < i && links[k].id != 0 ==> links[k].roomAck == room.revision
      {
        if links[i].id != 0 && links[i].roomAck != room.revision { acked := false; }
        i := i + 1;
      }
      var ready := IsAllReady();
      if acked && ready {
        if session == 0 || session == room.session { status := IO; return true; }
        room := room.(session := session);
        MarkChanged();
        room := room.(starting := 1);
      }
    }

    method SendStates()
      requires Shape(View())
      modifies `outbox
      ensures outbox == old(outbox) + States(View(), room.maxSlots)
    {
      var i := 0;
      while i < room.maxSlots
        invariant 0 <= i <= room.maxSlots
        invariant outbox == old(outbox) + States(View(), i)
      {
        if links[i].id != 0 { Send(SendState(View(), i)); }
        i := i + 1;
      }
    }

    method Drain(inbox: seq<(Up, bool)>) returns (ghost events: seq<HostEvent>)
      requires Shape(View())
      modifies this
      ensures events == Drained(inbox, if |inbox| < 256 then |inbox| else 256)
      ensures View() == HostRun(old(View()), events).host
      ensures outbox == old(outbox) + HostRun(old(View()), events).sent
    {
      hide HostRun, HostReceive;
      ghost var h := View();
      events := [];
      HostRunNone(h);
      var i := 0;
      while i < 256 && i < |inbox|
        invariant 0 <= i <= 256 && i <= |inbox| && events == Drained(inbox, i)
        invariant Shape(View()) && View() == HostRun(h, events).host
        invariant outbox == old(outbox) + HostRun(h, events).sent
      {
        HostRunStep(h, events, Receive(inbox[i].0, inbox[i].1));
        Handle(inbox[i].0, inbox[i].1);
        events := events + [Receive(inbox[i].0, inbox[i].1)];
        i := i + 1;
      }
    }

    /** Removes the seats whose link has been silent too long. */
    method ExpireSilent(stale: set<int>) returns (ghost events: seq<HostEvent>)
      requires Shape(View())
      modifies this
      ensures events == Expired(old(View()), stale)
      ensures View() == HostRun(old(View()), events).host
      ensures outbox == old(outbox) + HostRun(old(View()), events).sent
    {
      hide HostStep, HostRun;
      ghost var h := View();
      events := [];
      HostRunNone(h);
      if room.starting != 0 { return; }
      var i := 0;
      while i < room.maxSlots
        invariant 0 <= i <= room.maxSlots == h.room.maxSlots && Shape(View()) && room.starting == 0
        invariant forall k :: i <= k < SEATS ==> links[k] == h.links[k]
        invariant events == Silent(h.links, stale, i)
        invariant View() == HostRun(h, events).host && outbox == old(outbox) + HostRun(h, events).sent
      {
        if links[i].id != 0 && i in stale {
          HostRunStep(h, events, Expire(i));
          ExpireOne(i);
          events := events + [Expire(i)];
        }
        i := i + 1;
      }
    }

    method ExpireOne(slot: int)
      requires Shape(View()) && 0 <= slot < room.maxSlots && room.starting == 0 && links[slot].id != 0
      modifies this
      ensures View() == HostStep(old(View()), Expire(slot)).host
      ensures outbox == old(outbox) + HostStep(old(View()), Expire(slot)).sent
      ensures room.starting == 0 && room.maxSlots == old(room.maxSlots) && links == old(links)[slot := NO_LINK]
    {
      Remove(slot, TIMEOUT);
    }

    /** The start block, the start's time limit and the resend. */
    method Continue(session: u32, startTimedOut: bool, resend: bool) returns (ghost events: seq<HostEvent>)
      requires Shape(View())
      modifies this
      ensures events == Continued(old(View()), session, startTimedOut, resend)
      ensures View() == HostRun(old(View()), events).host
      ensures outbox == old(outbox) + HostRun(old(View()), events).sent
    {
      hide HostRun, HostBegin, DrawRefused, LaunchReady, HostStep, Continued;
      ContinuedIs(View(), session, startTimedOut, resend);
      events := Continued(View(), session, startTimedOut, resend);
      var failed := BeginIfAcked(session);
      if failed { return; }
      var launchable := MayLaunch();
      if room.starting != 0 && startTimedOut && !launchable {
        status := TIMEOUT;
        return;
      }
      if resend { SendStates(); }
    }

    /** rnet_lan_room_pump for a host. The clock and the random source are arguments: which links fell silent,
        which session number was drawn, whether a start ran out of time, whether a resend is due. */
    method Pump(inbox: seq<(Up, bool)>, stale: set<int>, session: u32, startTimedOut: bool, resend: bool)
      returns (ghost events: seq<HostEvent>)
      requires Shape(View())
      modifies this
      ensures events == Pumped(old(View()), inbox, stale, session, startTimedOut, resend)
      ensures View() == HostRun(old(View()), events).host
      ensures outbox == old(outbox) + HostRun(old(View()), events).sent
    {
      hide HostRun, HostStep, Expired, Continued;
      ghost var h := View();
      HostRunNone(h);
      if status < 0 { return []; }
      events := Drain(inbox);
      if status < 0 { return; }
      ghost var expired := ExpireSilent(stale);
      HostRunConcat(h, events, expired);
      ghost var rest := Continue(session, startTimedOut, resend);
      HostRunConcat(h, events + expired, rest);
      events := (events + expired) + rest;
    }
  }

  lemma BeginOnly(h: Host, session: u32)
    requires Shape(h)
    ensures HostRun(h, [Begin(session)]) == HostOut(HostBegin(h, session), [])
  {
    hide HostBegin, HostRun;
    HostRunNone(h);
    HostRunStep(h, [], Begin(session));
    assert [] + [Begin(session)] == [Begin(session)];
  }

  lemma NothingBefore(o: HostOut)
    ensures HostOut(o.host, [] + o.sent) == o
  {
  }

  lemma BeginThen(h: Host, session: u32, e: HostEvent)
    requires Shape(h)
    ensures HostRun(h, [Begin(session), e]) == HostStep(HostBegin(h, session), e)
  {
    hide HostBegin, HostRun, HostStep;
    BeginOnly(h, session);
    var first := [Begin(session)];
    assert first + [e] == [Begin(session), e];
    HostRunStep(h, first, e);
    NothingBefore(HostStep(HostBegin(h, session), e));
  }

  /** What that part of the pump comes to. */
  lemma ContinuedIs(h: Host, session: u32, startTimedOut: bool, resend: bool)
    requires Shape(h)
    ensures var begun := HostBegin(h, session);
            HostRun(h, Continued(h, session, startTimedOut, resend)) ==
            if DrawRefused(h, session) then HostOut(begun, [])
            else if begun.room.starting != 0 && startTimedOut && !LaunchReady(begun)
              then HostOut(begun.(status := TIMEOUT), [])
            else HostOut(begun, if resend then States(begun, begun.room.maxSlots) else [])
  {
    hide HostBegin, HostRun, LaunchReady, DrawRefused;
    BeginOnly(h, session);
    BeginThen(h, session, GiveUp);
    BeginThen(h, session, Resend);
  }

  lemma HostRunNone(h: Host)
    requires Shape(h)
    ensures HostRun(h, []) == HostOut(h, [])
  {
  }

  lemma {:induction false} HostRunConcat(h: Host, es: seq<HostEvent>, fs: seq<HostEvent>)
    requires Shape(h)
    ensures var p := HostRun(h, es);
            var o := HostRun(p.host, fs);
            HostRun(h, es + fs) == HostOut(o.host, p.sent + o.sent)
  {
    hide HostStep;
    if fs == [] {
      assert es + fs == es;
    } else {
      var front, last := fs[..|fs| - 1], fs[|fs| - 1];
      HostRunConcat(h, es, front);
      assert es + fs == (es + front) + [last];
      HostRunStep(h, es + front, last);
      assert front + [last] == fs;
      var p := HostRun(h, es);
      var q := HostRun(p.host, front);
      HostRunStep(p.host, front, last);
      assert (p.sent + q.sent) + HostStep(q.host, last).sent == p.sent + (q.sent + HostStep(q.host, last).sent);
    }
  }

  // ---- what one pump of a guest does --------------------------------------

  function GuestRun(g: Guest, es: seq<GuestEvent>): GuestOut
  {
    if es == [] then GuestOut(g, [])
    else
      var p := GuestRun(g, es[..|es| - 1]);
      var o := GuestStep(p.guest, es[|es| - 1]);
      GuestOut(o.guest, p.sent + o.sent)
  }

  lemma GuestRunNone(g: Guest)
    ensures GuestRun(g, []) == GuestOut(g, [])
  {
  }

  lemma GuestRunStep(g: Guest, es: seq<GuestEvent>, e: GuestEvent)
    ensures var p := GuestRun(g, es);
            var o := GuestStep(p.guest, e);
            GuestRun(g, es + [e]) == GuestOut(o.guest, p.sent + o.sent)
  {
    hide GuestStep;
    assert (es + [e])[..|es|] == es;
  }

  function Heard(inbox: seq<Down>, n: nat): seq<GuestEvent>
    requires n <= |inbox|
  {
    seq(n, i requires 0 <= i < n => Hear(inbox[i]))
  }

  /** What request() answers: OK exactly when it takes a number. */
  function RequestCode(g: Guest): (rc: int)
    ensures rc == OK <==> Request(g, 0, 0, 0) != g
  {
    if !g.joined || g.status < 0 then ARGUMENT
    else if g.room.starting != 0 then STARTED
    else if g.sequence == U32_MAX then ARGUMENT
    else OK
  }

  /** At most 256 packets, then a lost host or a repeat. */
  function GuestPumped(g: Guest, inbox: seq<Down>, silent: bool, resend: bool): seq<GuestEvent>
  {
    if g.status < 0 then []
    else
      var heard := Heard(inbox, if |inbox| < 256 then |inbox| else 256);
      if GuestRun(g, heard).guest.status < 0 then heard
      else if silent then heard + [LoseHost]
      else if resend then heard + [GuestEvent.Repeat]
      else heard
  }

  class GuestPeer {
    const id: u32
    const addr: Address
    const game: Text
    const version: Text
    const password: Text
    const name: Text
    const supported: int32
    var open: bool
    var status: int
    var joined: bool
    var sequence: u32
    var pending: Option<Pending>
    var room: Room
    var startSeen: bool
    var chatSequence: u32
    var chatSeen: u32
    var chat: seq<ChatLine>
    var outbox: seq<Up>

    function View(): Guest
      reads this
    {
      Guest(id, addr, game, version, password, name, supported, open, status, joined, sequence, pending, room,
            startSeen, chatSequence, chatSeen, chat)
    }

    /** rnet_lan_room_guest_open after its arguments were accepted. */
    constructor (id: u32, addr: Address, game: Text, version: Text, password: Text, name: Text, supported: int32)
      requires GuestOpen(id, addr, game, version, password, name, supported).Some?
      ensures Some(View()) == GuestOpen(id, addr, game, version, password, name, supported) && outbox == []
    {
      this.id, this.addr, this.game, this.version := id, addr, game, version;
      this.password, this.name, this.supported := password, name, supported;
      open, status, joined, sequence, pending := true, 1, false, 0, None;
      room, startSeen, chatSequence, chatSeen, chat, outbox := NO_ROOM, false, 0, 0, [], [];
    }

    method Send(body: UpBody)
      modifies `outbox
      ensures outbox == old(outbox) + [GuestSimple(View(), body)]
    {
      outbox := outbox + [Up(addr, room.epoch, id, sequence, room.revision, body)];
    }

    method OwnSlot(next: Room) returns (s: int)
      requires ValidRoom(next)
      ensures s >= 0 <==> SlotOf(next, id) >= 0
    {
      s := -1;
      var i := 0;
      while i < next.maxSlots
        invariant 0 <= i <= next.maxSlots && -1 <= s < i
        invariant s >= 0 ==> next.members[s].id == id
        invariant s < 0 ==> forall k :: 0 <= k < i ==> next.members[k].id != id
      {
        if next.members[i].id == id { s := i; }
        i := i + 1;
      }
    }

    /** The ROOM and START branch of handle_guest. */
    method Receive(d: Down)
      requires IsState(d)
      modifies this
      ensures View() == GuestState(old(View()), d).guest && outbox == old(outbox) + GuestState(old(View()), d).sent
    {
      hide ValidRoom, Adopt;
      var next := Announced(d);
      if !ValidRoom(next) || next.maxSlots > supported || next.game != game || next.version != version { return; }
      if joined && next.revision < room.revision { return; }
      if joined && next.revision == room.revision && next != room { status := IDENTITY; return; }
      var own := OwnSlot(next);
      if own < 0 { status := KICKED; return; }
      AdoptRoom(next, d.body.Launch?, d.sequence);
    }

    method AdoptRoom(next: Room, start: bool, heard: u32)
      modifies this
      ensures View() == Adopt(old(View()), next, start, heard).guest
      ensures outbox == old(outbox) + Adopt(old(View()), next, start, heard).sent
    {
      if start && next.starting != 0 && (room.starting == 0 || room.session != next.session) { startSeen := true; }
      if next.starting == 0 { startSeen := false; }
      room := next;
      joined := true;
      status := OK;
      if heard >= sequence { pending := None; }
      if start && next.starting != 0 {
        if !startSeen { startSeen := true; }
        Send(StartAck);
      } else {
        Send(Ack);
      }
    }

    /** handle_guest. */
    method Handle(d: Down)
      modifies this
      ensures View() == GuestReceive(old(View()), d).guest && outbox == old(outbox) + GuestReceive(old(View()), d).sent
    {
      if d.id != id { return; }
      if d.body.Nak? && !joined { status := if d.body.status < 0 then d.body.status else IDENTITY; return; }
      if joined && d.epoch != room.epoch { return; }
      if d.body.Close? && joined { status := if d.body.status < 0 then d.body.status else CLOSED; return; }
      if d.body.ChatEcho? && joined {
        var line := d.body.line;
        if line.player == 0 || line.text == [] || d.sequence <= chatSeen { return; }
        chatSeen := d.sequence;
        chat := Queued(chat, line);
        return;
      }
      if !IsState(d) { return; }
      Receive(d);
    }

    /** send_guest. */
    method Repeat()
      modifies `outbox
      ensures outbox == old(outbox) + [GuestSend(View())]
    {
      if !joined {
        outbox := outbox + [Up(addr, 0, id, 0, 0, Join(game, version, password, name, supported))];
      } else if pending.Some? {
        var p := pending.value;
        outbox := outbox + [Up(addr, room.epoch, id, sequence, p.revision, Op(p.op, p.a, p.b))];
      } else if room.starting != 0 {
        Send(StartAck);
      } else {
        Send(Ack);
      }
    }

    method Drain(inbox: seq<Down>) returns (ghost events: seq<GuestEvent>)
      modifies this
      ensures events == Heard(inbox, if |inbox| < 256 then |inbox| else 256)
      ensures View() == GuestRun(old(View()), events).guest
      ensures outbox == old(outbox) + GuestRun(old(View()), events).sent
    {
      hide GuestRun, GuestReceive;
      ghost var g := View();
      events := [];
      GuestRunNone(g);
      var i := 0;
      while i < 256 && i < |inbox|
        invariant 0 <= i <= 256 && i <= |inbox| && events == Heard(inbox, i)
        invariant View() == GuestRun(g, events).guest && outbox == old(outbox) + GuestRun(g, events).sent
      {
        GuestRunStep(g, events, Hear(inbox[i]));
        Handle(inbox[i]);
        events := events + [Hear(inbox[i])];
        i := i + 1;
      }
    }

    /** rnet_lan_room_pump for a guest; whether the host fell silent and whether a resend is due are arguments. */
    method Pump(inbox: seq<Down>, silent: bool, resend: bool) returns (ghost events: seq<GuestEvent>)
      modifies this
      ensures events == GuestPumped(old(View()), inbox, silent, resend)
      ensures View() == GuestRun(old(View()), events).guest
      ensures outbox == old(outbox) + GuestRun(old(View()), events).sent
    {
      hide GuestRun, GuestReceive;
      ghost var g := View();
      GuestRunNone(g);
      if status < 0 { return []; }
      events := Drain(inbox);
      if status < 0 { return; }
      if silent {
        GuestRunStep(g, events, LoseHost);
        status := TIMEOUT;
        events := events + [LoseHost];
        return;
      }
      if resend {
        GuestRunStep(g, events, GuestEvent.Repeat);
        Repeat();
        events := events + [GuestEvent.Repeat];
      }
    }

    method Ask(op: u32, a: u32, b: u32) returns (rc: int)
      modifies `sequence, `pending
      ensures View() == Request(old(View()), op, a, b) && rc == RequestCode(old(View()))
    {
      if !joined || status < 0 { return ARGUMENT; }
      if room.starting != 0 { return STARTED; }
      if sequence == U32_MAX { return ARGUMENT; }
      sequence := sequence + 1;
      pending := Some(Pending(op, a, b, room.revision));
      return OK;
    }

    method SetReady(ready: bool) returns (rc: int)
      modifies `sequence, `pending
      ensures View() == GuestSetReady(old(View()), ready)
      ensures rc == if !joined || room.starting != 0 then ARGUMENT else RequestCode(old(View()))
    {
      if !joined || room.starting != 0 { return ARGUMENT; }
      rc := Ask(OP_READY, if ready then 1 else 0, room.configuration);
    }

    method ClaimSeat(from: int, to: int) returns (rc: int)
      modifies `sequence, `pending
      ensures View() == GuestMove(old(View()), from, to)
      ensures rc == if !joined || from < 0 || from != SlotOf(room, id)
                       || !(0 <= to < room.maxSlots) || to >= |room.members|
                    then ARGUMENT else if room.members[to].id != 0 then OCCUPIED else RequestCode(old(View()))
    {
      if !joined { return ARGUMENT; }
      if from != SlotOf(room, id) || from < 0 { return ARGUMENT; }
      if to < 0 || to >= room.maxSlots || to >= |room.members| { return ARGUMENT; }
      if room.members[to].id != 0 { return OCCUPIED; }
      rc := Ask(OP_MOVE, from, to);
    }

    method Speak(text: Text) returns (rc: int)
      modifies `chatSequence, `outbox
      ensures View() == GuestSay(old(View()), text).guest && outbox == old(outbox) + GuestSay(old(View()), text).sent
      ensures rc == if GuestSay(old(View()), text).sent == [] then ARGUMENT else OK
    {
      if !joined || status < 0 || |text| >= 256 || !Printable(text) || text == [] || chatSequence == U32_MAX {
        return ARGUMENT;
      }
      chatSequence := chatSequence + 1;
      outbox := outbox + [Up(addr, room.epoch, id, chatSequence, room.revision, ChatRequest(text))];
      return OK;
    }

    method TakeOne() returns (line: Option<ChatLine>)
      modifies `chat
      ensures View() == old(View()).(chat := TakeChat(old(chat)))
      ensures line == if old(chat) == [] then None else Some(old(chat)[0])
    {
      if chat == [] { return None; }
      line := Some(chat[0]);
      chat := chat[1..];
    }

    /** rnet_lan_room_close: no LEAVE once the launch handoff is done. */
    method Quit(handedOff: bool)
      modifies `open, `outbox
      ensures View() == GuestStep(old(View()), GuestEvent.Quit(handedOff)).guest
      ensures outbox == old(outbox) + GuestStep(old(View()), GuestEvent.Quit(handedOff)).sent
    {
      var launched := handedOff && joined && status >= 0 && room.starting != 0 && startSeen;
      if !launched && joined { Send(Leave); }
      open := false;
    }
  }

  /** The chat ring of either peer: a fixed array with a head and a count. */
  class ChatRing {
    const lines: array<ChatLine>
    var head: nat
    var count: nat

    ghost predicate Valid()
      reads this
    {
      lines.Length == CHAT_QUEUE && head < CHAT_QUEUE && count <= CHAT_QUEUE
    }

    /** The queued lines, oldest first. */
    ghost function Contents(): (q: seq<ChatLine>)
      requires Valid()
      reads this, lines
    {
      Turned(lines[..], head, count)
    }

    constructor (blank: ChatLine)
      ensures Valid() && fresh(lines) && Contents() == []
    {
      lines := new ChatLine[CHAT_QUEUE](_ => blank);
      head, count := 0, 0;
    }

    /** queue_chat: a full ring drops its oldest line. */
    method Queue(line: ChatLine)
      requires Valid()
      modifies this, lines
      ensures Valid() && Contents() == Queued(old(Contents()), line)
    {
      hide Turned;
      ghost var cells := lines[..];
      var index;
      if count < CHAT_QUEUE {
        TurnedAppend(cells, head, count, line);
        index := (head + count) % CHAT_QUEUE;
        count := count + 1;
      } else {
        TurnedRoll(cells, head, line);
        index := head;
        head := (head + 1) % CHAT_QUEUE;
      }
      lines[index] := line;
      assert lines[..] == cells[index := line];
    }

    /** take_chat: oldest first, nothing when empty. */
    method Take() returns (out: Option<ChatLine>)
      requires Valid()
      modifies this
      ensures Valid() && Contents() == TakeChat(old(Contents()))
      ensures out == if old(Contents()) == [] then None else Some(old(Contents())[0])
    {
      hide Turned;
      if count == 0 { return None; }
      TurnedFront(lines[..], head, count);
      out := Some(lines[head]);
      head := (head + 1) % CHAT_QUEUE;
      count := count - 1;
    }
  }

  /** The first `n` cells of a ring from `head` on. */
  ghost function Turned(cells: seq<ChatLine>, head: nat, n: nat): (q: seq<ChatLine>)
    requires |cells| == CHAT_QUEUE && head < CHAT_QUEUE && n <= CHAT_QUEUE
    ensures |q| == n
  {
    if n == 0 then [] else Turned(cells, head, n - 1) + [cells[(head + n - 1) % CHAT_QUEUE]]
  }

  /** Cells past the first `n` do not show. */
  lemma {:induction false} TurnedSame(cells: seq<ChatLine>, m: nat, line: ChatLine, head: nat, n: nat)
    requires |cells| == CHAT_QUEUE && head < CHAT_QUEUE && n <= m < CHAT_QUEUE
    ensures Turned(cells[(head + m) % CHAT_QUEUE := line], head, n) == Turned(cells, head, n)
  {
    if n > 0 {
      assert (head + n - 1) % CHAT_QUEUE != (head + m) % CHAT_QUEUE;
      TurnedSame(cells, m, line, head, n - 1);
    }
  }

  lemma TurnedAppend(cells: seq<ChatLine>, head: nat, n: nat, line: ChatLine)
    requires |cells| == CHAT_QUEUE && head < CHAT_QUEUE && n < CHAT_QUEUE
    ensures Turned(cells[(head + n) % CHAT_QUEUE := line], head, n + 1) == Turned(cells, head, n) + [line]
  {
    TurnedSame(cells, n, line, head, n);
  }

  /** Starting one cell later drops the first cell. */
  lemma {:induction false} TurnedFront(cells: seq<ChatLine>, head: nat, n: nat)
    requires |cells| == CHAT_QUEUE && head < CHAT_QUEUE && 0 < n <= CHAT_QUEUE
    ensures Turned(cells, head, n)[0] == cells[head]
    ensures Turned(cells, (head + 1) % CHAT_QUEUE, n - 1) == Turned(cells, head, n)[1..]
  {
    if n > 1 {
      TurnedFront(cells, head, n - 1);
      NextCell(head, n - 2);
      assert Turned(cells, head, n) == Turned(cells, head, n - 1) + [cells[(head + n - 1) % CHAT_QUEUE]];
    }
  }

  lemma NextCell(head: nat, k: nat)
    requires head < CHAT_QUEUE
    ensures ((head + 1) % CHAT_QUEUE + k) % CHAT_QUEUE == (head + k + 1) % CHAT_QUEUE
  {
    assert head + 1 < CHAT_QUEUE || head + 1 == CHAT_QUEUE;
  }

  lemma TurnedRoll(cells: seq<ChatLine>, head: nat, line: ChatLine)
    requires |cells| == CHAT_QUEUE && head < CHAT_QUEUE
    ensures Turned(cells[head := line], (head + 1) % CHAT_QUEUE, CHAT_QUEUE) ==
            Turned(cells, head, CHAT_QUEUE)[1..] + [line]
  {
    var next := (head + 1) % CHAT_QUEUE;
    NextCell(head, CHAT_QUEUE - 1);
    TurnedFront(cells, head, CHAT_QUEUE);
    TurnedAppend(cells, next, CHAT_QUEUE - 1, line);
  }
}
