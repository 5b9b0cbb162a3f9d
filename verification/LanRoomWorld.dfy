/** A host object and guest objects that hear only each other's packets: the theorems hold of the objects. */
module LanRoomWorld {
  import opened Common
  import opened LanRoom
  import opened LanRoomHost
  import opened LanRoomProtocol
  import opened LanRoomTheorems
  import opened LanRoomPeer
  import opened LanRoomRefinement

  /** Everything the guests sent. */
  ghost function Union(asked: map<u32, seq<Up>>): set<Up>
  {
    set id, u | id in asked && u in asked[id] :: u
  }

  lemma UnionGrows(asked: map<u32, seq<Up>>, id: u32, more: seq<Up>)
    ensures id in asked ==> Union(asked[id := asked[id] + more]) == Union(asked) + (set u | u in more)
    ensures id !in asked ==> Union(asked[id := []]) == Union(asked)
  {
    var grown := asked[id := if id in asked then asked[id] + more else []];
    forall u | u in Union(asked) ensures u in Union(grown) {
      var i :| i in asked && u in asked[i];
      assert u in grown[i];
    }
    if id in asked {
      forall u | u in more ensures u in Union(grown) { assert u in grown[id]; }
    }
  }

  /** The state of the system is the state of the objects, and what they sent is what is on the network. */
  ghost predicate Tracks(s: System, h: Host, sent: seq<Down>, gs: map<u32, Guest>, asked: map<u32, seq<Up>>)
  {
    && s.host == h && s.guests == gs && s.heard.Keys == gs.Keys == asked.Keys
    && s.down == (set d | d in sent) && s.up == Union(asked)
  }

  lemma OpensTracked(id: u32, config: Room, password: Text)
    requires HostOpen(id, config, password).Some?
    ensures var h := HostOpen(id, config, password).value;
            Shape(h) && Opened(h) && Tracks(Execute(h, []), h, [], map[], map[])
  {
    OpenOk(id, config, password);
  }

  lemma HostActs(start: Host, run: seq<Event>, h: Host, es: seq<HostEvent>, sent: seq<Down>,
                 gs: map<u32, Guest>, asked: map<u32, seq<Up>>)
    requires Shape(start) && Shape(h) && Tracks(Execute(start, run), h, sent, gs, asked)
    requires forall e :: e in es && e.Receive? ==> exists id :: id in asked && e.u in asked[id]
    ensures Tracks(Execute(start, run + AsRun(es)), HostRun(h, es).host, sent + HostRun(h, es).sent, gs, asked)
  {
    hide Execute, HostRun;
    PumpIsRun(start, run, es);
  }

  lemma HostCalls(start: Host, run: seq<Event>, h: Host, e: HostEvent, sent: seq<Down>,
                  gs: map<u32, Guest>, asked: map<u32, seq<Up>>)
    requires Shape(start) && Shape(h) && Tracks(Execute(start, run), h, sent, gs, asked) && !e.Receive?
    ensures Tracks(Execute(start, run + [AtHost(e)]), HostStep(h, e).host, sent + HostStep(h, e).sent, gs, asked)
  {
    hide Execute, HostStep, Turn;
    ExecuteAppend(start, run, AtHost(e));
    HostTurn(Execute(start, run), e);
  }

  lemma GuestActs(start: Host, run: seq<Event>, h: Host, id: u32, es: seq<GuestEvent>, sent: seq<Down>,
                  gs: map<u32, Guest>, asked: map<u32, seq<Up>>)
    requires Shape(start) && Tracks(Execute(start, run), h, sent, gs, asked)
    requires id in gs && id in asked && gs[id].open && forall e :: e in es ==> !e.Quit?
    requires forall e :: e in es && e.Hear? ==> e.d in sent && e.d.dest == gs[id].addr
    ensures var o := GuestRun(gs[id], es);
            Tracks(Execute(start, run + AsGuestRun(id, es)), h, sent, gs[id := o.guest],
                   asked[id := asked[id] + o.sent])
  {
    hide Execute, GuestRun, Union;
    GuestPumpIsRun(start, run, id, es);
    UnionGrows(asked, id, GuestRun(gs[id], es).sent);
  }

  lemma GuestCalls(start: Host, run: seq<Event>, h: Host, id: u32, e: GuestEvent, sent: seq<Down>,
                   gs: map<u32, Guest>, asked: map<u32, seq<Up>>)
    requires Shape(start) && Tracks(Execute(start, run), h, sent, gs, asked)
    requires id in gs && id in asked && gs[id].open && !e.Hear?
    ensures var o := GuestStep(gs[id], e);
            Tracks(Execute(start, run + [AtGuest(id, e)]), h, sent, gs[id := o.guest], asked[id := asked[id] + o.sent])
  {
    hide Execute, GuestStep, Turn, Union;
    ExecuteAppend(start, run, AtGuest(id, e));
    GuestTurn(Execute(start, run), id, e);
    UnionGrows(asked, id, GuestStep(gs[id], e).sent);
  }

  lemma GuestComes(start: Host, run: seq<Event>, h: Host, e: Event, sent: seq<Down>,
                   gs: map<u32, Guest>, asked: map<u32, seq<Up>>)
    requires Shape(start) && Tracks(Execute(start, run), h, sent, gs, asked)
    requires e.Opens? && e.id !in gs && e.id != h.id && e.addr != 0
    requires GuestOpen(e.id, e.addr, e.game, e.version, e.password, e.name, e.supported).Some?
    ensures var g := GuestOpen(e.id, e.addr, e.game, e.version, e.password, e.name, e.supported).value;
            Tracks(Execute(start, run + [e]), h, sent, gs[e.id := g], asked[e.id := []])
  {
    hide Execute, GuestOpen, Union;
    ExecuteAppend(start, run, e);
    UnionGrows(asked, e.id, []);
  }

  // ---- what a pump hears --------------------------------------------------

  /** A pump's events hear only packets of its inbox. */
  lemma PumpedHears(h: Host, inbox: seq<(Up, bool)>, stale: set<int>, session: u32, startTimedOut: bool,
                    resend: bool, e: HostEvent)
    requires Shape(h) && e in Pumped(h, inbox, stale, session, startTimedOut, resend) && e.Receive?
    ensures exists k :: 0 <= k < |inbox| && inbox[k].0 == e.u
  {
    hide HostRun, HostBegin, LaunchReady, DrawRefused, Silent;
    var n := if |inbox| < 256 then |inbox| else 256;
    var drained := Drained(inbox, n);
    var h1 := HostRun(h, drained).host;
    if e in Expired(h1, stale) {
      SilentExpires(h1.links, stale, h1.room.maxSlots, e);
    } else {
      var k :| 0 <= k < n && drained[k] == e;
      assert inbox[k].0 == e.u;
    }
  }

  lemma {:induction false} SilentExpires(ls: seq<Link>, stale: set<int>, n: nat, e: HostEvent)
    requires n <= |ls| && e in Silent(ls, stale, n)
    ensures e.Expire?
  {
    if n > 0 && e in Silent(ls, stale, n - 1) { SilentExpires(ls, stale, n - 1, e); }
  }

  lemma GuestPumpedHears(g: Guest, inbox: seq<Down>, silent: bool, resend: bool, e: GuestEvent)
    requires e in GuestPumped(g, inbox, silent, resend)
    ensures !e.Quit? && (e.Hear? ==> e.d in inbox)
  {
    hide GuestRun;
    var n := if |inbox| < 256 then |inbox| else 256;
    if e in LanRoomPeer.Heard(inbox, n) {
      var k :| 0 <= k < n && LanRoomPeer.Heard(inbox, n)[k] == e;
      assert inbox[k] in inbox;
    }
  }

  // ---- the calls of either peer -------------------------------------------

  /** The events that are calls of the application, not parts of a pump. */
  predicate IsHostCall(e: HostEvent)
  {
    e.SetReady? || e.Move? || e.Kick? || e.SetCaps? || e.Start? || e.Say? || e.Take? || e.Shutdown?
  }

  predicate IsGuestCall(e: GuestEvent)
  {
    e.Vote? || e.Claim? || e.Speak? || e.TakeLine? || e.Quit?
  }

  method CallHost(p: HostPeer, e: HostEvent)
    requires Shape(p.View()) && IsHostCall(e)
    modifies p
    ensures p.View() == HostStep(old(p.View()), e).host
    ensures p.outbox == old(p.outbox) + HostStep(old(p.View()), e).sent
  {
    hide HostSetReady, MoveMember, HostKick, HostSetCaps, HostStart, HostSay, Closes, LaunchReady, Shape;
    match e {
      case SetReady(ready) => var _ := p.SetOwnReady(ready);
      case Move(from, to) => var _ := p.MoveSeat(from, to);
      case Kick(slot) => var _ := p.KickSeat(slot);
      case SetCaps(caps) => var _ := p.ChangeCaps(caps);
      case Start => var _ := p.RequestStart();
      case Say(text) => var _ := p.SayOwn(text);
      case Take => var _ := p.TakeLine();
      case Shutdown => p.Shut();
    }
  }

  method CallGuest(p: GuestPeer, e: GuestEvent)
    requires IsGuestCall(e)
    modifies p
    ensures p.View() == GuestStep(old(p.View()), e).guest
    ensures p.outbox == old(p.outbox) + GuestStep(old(p.View()), e).sent
  {
    match e {
      case Vote(ready) => var _ := p.SetReady(ready);
      case Claim(from, to) => var _ := p.ClaimSeat(from, to);
      case Speak(text) => var _ := p.Speak(text);
      case TakeLine => var _ := p.TakeOne();
      case Quit(handedOff) => p.Quit(handedOff);
    }
  }

  // ---- the objects together -----------------------------------------------

  /** What the applications of the two sides do, and which packets each pump finds. */
  datatype Op =
    | HostCall(he: HostEvent)
    | HostPump(heard: seq<(Up, bool)>, stale: set<int>, session: u32, startTimedOut: bool, resend: bool)
    | GuestCall(id: u32, ge: GuestEvent)
    | GuestPump(id: u32, told: seq<Down>, silent: bool, resend: bool)
    | Arrival(id: u32, addr: Address, game: Text, version: Text, password: Text, name: Text, supported: int32)

  /** A pump hears only packets that the other side sent, and a closed guest does nothing more. */
  ghost predicate Permitted(s: System, op: Op)
  {
    match op
    case HostCall(e) => IsHostCall(e)
    case HostPump(inbox, _, _, _, _) => forall k :: 0 <= k < |inbox| ==> inbox[k].0 in s.up
    case GuestCall(id, e) => id in s.guests && s.guests[id].open && IsGuestCall(e)
    case GuestPump(id, inbox, _, _) =>
      && id in s.guests && s.guests[id].open
      && forall d :: d in inbox ==> d in s.down && d.dest == s.guests[id].addr
    case Arrival(id, addr, game, version, password, name, supported) =>
      && id !in s.guests && id != s.host.id && addr != 0
      && GuestOpen(id, addr, game, version, password, name, supported).Some?
  }

  /** What an operation is in the transition system. */
  ghost function Events(s: System, op: Op): seq<Event>
    requires Shape(s.host) && Permitted(s, op)
  {
    match op
    case HostCall(e) => [AtHost(e)]
    case HostPump(inbox, stale, session, startTimedOut, resend) =>
      AsRun(Pumped(s.host, inbox, stale, session, startTimedOut, resend))
    case GuestCall(id, e) => [AtGuest(id, e)]
    case GuestPump(id, inbox, silent, resend) => AsGuestRun(id, GuestPumped(s.guests[id], inbox, silent, resend))
    case Arrival(id, addr, game, version, password, name, supported) =>
      [Opens(id, addr, game, version, password, name, supported)]
  }

  /** The run of a list of operations; one that is not permitted does not happen. */
  ghost function Played(h: Host, ops: seq<Op>): seq<Event>
    requires Shape(h)
  {
    if ops == [] then []
    else
      var run := Played(h, ops[..|ops| - 1]);
      var s := Execute(h, run);
      if Permitted(s, ops[|ops| - 1]) then run + Events(s, ops[|ops| - 1]) else run
  }

  class World {
    const host: HostPeer
    var guests: map<u32, GuestPeer>
    /** The opened host, and everything that has happened since. */
    ghost const start: Host
    ghost var run: seq<Event>

    ghost function Views(): map<u32, Guest>
      reads this, guests.Values
    {
      map id | id in guests :: guests[id].View()
    }

    ghost function Asked(): map<u32, seq<Up>>
      reads this, guests.Values
    {
      map id | id in guests :: guests[id].outbox
    }

    ghost predicate Valid()
      reads this, host, guests.Values
    {
      && Shape(start) && Opened(start) && Shape(host.View())
      && Tracks(Execute(start, run), host.View(), host.outbox, Views(), Asked())
      && (forall i, j :: i in guests && j in guests && i != j ==> guests[i] != guests[j])
    }

    constructor (id: u32, config: Room, password: Text)
      requires HostOpen(id, config, password).Some?
      ensures Valid() && fresh(host) && guests == map[] && Some(start) == HostOpen(id, config, password) && run == []
    {
      host := new HostPeer(id, config, password);
      guests := map[];
      start := HostOpen(id, config, password).value;
      run := [];
      new;
      OpensTracked(id, config, password);
    }

    /** Puts a guest object beside the others. */
    method Add(id: u32, g: GuestPeer, ghost e: Event)
      requires Shape(start) && Opened(start) && Shape(host.View()) && id !in guests && g !in guests.Values
      requires Tracks(Execute(start, run + [e]), host.View(), host.outbox, Views()[id := g.View()],
                      Asked()[id := g.outbox])
      requires forall i, j :: i in guests && j in guests && i != j ==> guests[i] != guests[j]
      modifies this
      ensures Valid() && guests == old(guests)[id := g] && run == old(run) + [e]
    {
      hide Tracks, Execute, Shape, Opened, HostPeer.View, GuestPeer.View;
      ghost var views, asked := Views(), Asked();
      guests := guests[id := g];
      run := run + [e];
      assert Views() == views[id := g.View()];
      assert Asked() == asked[id := g.outbox];
    }

    /** A new guest; its id and address are its own. */
    method Arrive(id: u32, addr: Address, game: Text, version: Text, password: Text, name: Text, supported: int32)
      requires Valid() && id !in guests && id != host.View().id && addr != 0
      requires GuestOpen(id, addr, game, version, password, name, supported).Some?
      modifies this
      ensures Valid() && id in guests && fresh(guests[id]) && guests == old(guests)[id := guests[id]]
      ensures run == old(run) + [Opens(id, addr, game, version, password, name, supported)]
    {
      hide Tracks, Execute, GuestOpen, Shape, Opened, HostPeer.View, GuestPeer.View;
      ghost var e := Opens(id, addr, game, version, password, name, supported);
      ghost var views, asked := Views(), Asked();
      GuestComes(start, run, host.View(), e, host.outbox, views, asked);
      var g := new GuestPeer(id, addr, game, version, password, name, supported);
      assert Views() == views && Asked() == asked;
      Add(id, g, e);
    }

    method CallTheHost(e: HostEvent)
      requires Valid() && IsHostCall(e)
      modifies this, host
      ensures Valid() && guests == old(guests) && run == old(run) + [AtHost(e)]
    {
      hide Tracks, Execute, HostStep, Shape, Opened, HostPeer.View, GuestPeer.View;
      ghost var views, asked := Views(), Asked();
      HostCalls(start, run, host.View(), e, host.outbox, views, asked);
      CallHost(host, e);
      run := run + [AtHost(e)];
      assert Views() == views && Asked() == asked;
    }

    /** The packet was sent by some guest. */
    predicate FromGuest(u: Up)
      reads this, guests.Values
    {
      exists id | id in guests :: u in guests[id].outbox
    }

    /** The host pumps; every packet it hears was sent by a guest. */
    method PumpTheHost(inbox: seq<(Up, bool)>, stale: set<int>, session: u32, startTimedOut: bool, resend: bool)
      requires Valid() && forall k :: 0 <= k < |inbox| ==> FromGuest(inbox[k].0)
      modifies this, host
      ensures Valid() && guests == old(guests)
      ensures run == old(run) + AsRun(Pumped(old(host.View()), inbox, stale, session, startTimedOut, resend))
    {
      hide Tracks, Execute, HostRun, Pumped, Shape, Opened, HostPeer.View, GuestPeer.View;
      ghost var views, asked := Views(), Asked();
      ghost var h, sent := host.View(), host.outbox;
      ghost var es := Pumped(h, inbox, stale, session, startTimedOut, resend);
      forall e | e in es && e.Receive? ensures exists id :: id in asked && e.u in asked[id] {
        PumpedHears(h, inbox, stale, session, startTimedOut, resend, e);
        var k :| 0 <= k < |inbox| && inbox[k].0 == e.u;
        assert FromGuest(inbox[k].0);
        var id :| id in guests && e.u in guests[id].outbox;
        assert e.u in asked[id];
      }
      HostActs(start, run, h, es, sent, views, asked);
      ghost var _ := host.Pump(inbox, stale, session, startTimedOut, resend);
      run := run + AsRun(es);
      assert Views() == views && Asked() == asked;
    }

    /** When one guest object moves, the others are where they were. */
    twostate lemma OneMoves(id: u32)
      requires id in guests && guests == old(guests)
      requires forall i :: i in guests && i != id ==> unchanged(guests[i])
      ensures Views() == old(Views())[id := guests[id].View()]
      ensures Asked() == old(Asked())[id := guests[id].outbox]
    {
      hide GuestPeer.View;
    }

    method CallTheGuest(id: u32, e: GuestEvent)
      requires Valid() && id in guests && guests[id].View().open && IsGuestCall(e)
      modifies this, guests[id]
      ensures Valid() && guests == old(guests) && run == old(run) + [AtGuest(id, e)]
    {
      hide Tracks, Execute, GuestStep, Shape, Opened, HostPeer.View, GuestPeer.View;
      ghost var views, asked := Views(), Asked();
      GuestCalls(start, run, host.View(), id, e, host.outbox, views, asked);
      CallGuest(guests[id], e);
      run := run + [AtGuest(id, e)];
      OneMoves(id);
    }

    /** A guest pumps; every packet it hears was sent to it by the host. */
    method PumpTheGuest(id: u32, inbox: seq<Down>, silent: bool, resend: bool)
      requires Valid() && id in guests && guests[id].View().open
      requires forall d :: d in inbox ==> d in host.outbox && d.dest == guests[id].View().addr
      modifies this, guests[id]
      ensures Valid() && guests == old(guests)
      ensures run == old(run) + AsGuestRun(id, GuestPumped(old(guests[id].View()), inbox, silent, resend))
    {
      hide Tracks, Execute, GuestRun, GuestPumped, Shape, Opened, HostPeer.View, GuestPeer.View;
      ghost var views, asked := Views(), Asked();
      ghost var g := guests[id].View();
      ghost var es := GuestPumped(g, inbox, silent, resend);
      forall e | e in es ensures !e.Quit? && (e.Hear? ==> e.d in host.outbox && e.d.dest == g.addr) {
        GuestPumpedHears(g, inbox, silent, resend, e);
      }
      GuestActs(start, run, host.View(), id, es, host.outbox, views, asked);
      ghost var _ := guests[id].Pump(inbox, silent, resend);
      run := run + AsGuestRun(id, es);
      OneMoves(id);
    }

    /** Every seated guest is one of the objects, has joined, and holds the host's own room. */
    ghost predicate Agreed()
      requires Shape(host.View())
      reads this, host, guests.Values
    {
      forall i :: 0 <= i < SEATS && host.links[i].id != 0 ==>
        && host.links[i].id in guests && host.room.members[i].id == host.links[i].id
        && guests[host.links[i].id].joined && guests[host.links[i].id].room == host.room
    }

    /** rnet_lan_room_launch_ready() answers true only when all of them agree. */
    method MayLaunch() returns (b: bool)
      requires Valid()
      ensures b == LaunchReady(host.View())
      ensures b ==> Agreed()
    {
      b := host.MayLaunch();
      if b {
        forall i | 0 <= i < SEATS && host.links[i].id != 0
          ensures host.links[i].id in guests && host.room.members[i].id == host.links[i].id
          ensures guests[host.links[i].id].joined && guests[host.links[i].id].room == host.room
        {
          Agrees(i);
        }
      }
    }

    lemma Agrees(i: nat)
      requires Valid() && i < SEATS && LaunchReady(host.View()) && host.links[i].id != 0
      ensures host.links[i].id in guests && host.room.members[i].id == host.links[i].id
      ensures guests[host.links[i].id].joined && guests[host.links[i].id].room == host.room
    {
      hide Execute, LaunchReady, Opened;
      LaunchAgreement(start, run, i);
      assert Views()[host.links[i].id] == guests[host.links[i].id].View();
    }

    predicate Allowed(op: Op)
      reads this, host, guests.Values
    {
      match op
      case HostCall(e) => IsHostCall(e)
      case HostPump(inbox, _, _, _, _) => forall k :: 0 <= k < |inbox| ==> FromGuest(inbox[k].0)
      case GuestCall(id, e) => id in guests && guests[id].open && IsGuestCall(e)
      case GuestPump(id, inbox, _, _) =>
        && id in guests && guests[id].open
        && forall d :: d in inbox ==> d in host.outbox && d.dest == guests[id].addr
      case Arrival(id, addr, game, version, password, name, supported) =>
        && id !in guests && id != host.id && addr != 0
        && GuestOpen(id, addr, game, version, password, name, supported).Some?
    }

    /** The objects allow what the system allows. */
    lemma AllowedIff(op: Op)
      requires Valid()
      ensures Allowed(op) <==> Permitted(Execute(start, run), op)
    {
      hide Execute, Opened, GuestOpen, Shape;
      if op.HostPump? {
        forall k | 0 <= k < |op.heard| ensures FromGuest(op.heard[k].0) <==> op.heard[k].0 in Union(Asked()) {
          Sent(op.heard[k].0);
        }
      }
    }

    lemma Sent(u: Up)
      ensures FromGuest(u) <==> u in Union(Asked())
    {
      if FromGuest(u) {
        var id :| id in guests && u in guests[id].outbox;
        assert u in Asked()[id];
      }
    }

    method Do(op: Op)
      requires Valid() && Allowed(op) && Permitted(Execute(start, run), op)
      modifies this, host, guests.Values
      ensures Valid() && fresh(guests.Values - old(guests.Values))
      ensures run == old(run) + Events(Execute(start, old(run)), op)
    {
      hide Execute, Shape, Opened, GuestOpen, Pumped, GuestPumped, IsHostCall, IsGuestCall, Union, FromGuest;
      match op {
        case HostCall(e) => CallTheHost(e);
        case HostPump(inbox, stale, session, startTimedOut, resend) =>
          PumpTheHost(inbox, stale, session, startTimedOut, resend);
        case GuestCall(id, e) => CallTheGuest(id, e);
        case GuestPump(id, inbox, silent, resend) => PumpTheGuest(id, inbox, silent, resend);
        case Arrival(id, addr, game, version, password, name, supported) =>
          Arrive(id, addr, game, version, password, name, supported);
      }
    }
  }

  /** However the calls, the pumps and the arrivals interleave: the objects end where the run does, and if the
      host may launch then, every seated guest object holds the host object's room. */
  method Drive(id: u32, config: Room, password: Text, ops: seq<Op>) returns (w: World, launch: bool)
    requires HostOpen(id, config, password).Some?
    ensures w.Valid() && Some(w.start) == HostOpen(id, config, password) && w.run == Played(w.start, ops)
    ensures launch == LaunchReady(w.host.View()) && (launch ==> w.Agreed())
  {
    hide Tracks, Execute, Opened, HostOpen, LaunchReady, HostPeer.View, Events, Permitted;
    w := new World(id, config, password);
    for i := 0 to |ops|
      invariant w.Valid() && w.run == Played(w.start, ops[..i]) && Some(w.start) == HostOpen(id, config, password)
      invariant fresh(w) && fresh(w.host) && fresh(w.guests.Values)
    {
      assert ops[..i + 1][..i] == ops[..i];
      w.AllowedIff(ops[i]);
      if w.Allowed(ops[i]) { w.Do(ops[i]); }
    }
    assert ops[..|ops|] == ops;
    launch := w.MayLaunch();
  }
}
