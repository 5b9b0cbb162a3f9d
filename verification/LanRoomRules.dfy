/** What each event does to a host, told on seats and packets. */
module LanRoomRules {
  import opened Common
  import opened LanRoom
  import opened LanRoomHost

  // ---- the vocabulary ---------------------------------------------------------

  predicate Linked(h: Host, i: int)
    requires Shape(h)
  {
    0 <= i < h.room.maxSlots && h.links[i].id != 0
  }

  /** The packet comes from the owner of guest seat `i`: its id, its address, its room. */
  predicate From(h: Host, u: Up, i: int)
    requires Shape(h)
  {
    && Linked(h, i) && i != h.room.hostSlot && !u.body.Join?
    && u.id == h.links[i].id && u.source == h.links[i].addr && u.epoch == h.room.epoch
  }

  /** A change is published under the next number and takes back a wanted start; at the last number the host closes. */
  ghost predicate Renumbered(h: Host, h': Host)
  {
    if h.room.revision < U32_MAX
    then h'.room.revision == h.room.revision + 1 && !h'.wantStart && h'.status == h.status
    else h'.room.revision == h.room.revision && h'.wantStart == h.wantStart && h'.status == CLOSED
  }

  /** Nothing but the room, the links, the status and the wanted start may differ. */
  ghost predicate Besides(h: Host, h': Host)
  {
    && h'.id == h.id && h'.password == h.password && h'.chatSequence == h.chatSequence && h'.chat == h.chat
    && h'.retired == h.retired && h'.retiredAt == h.retiredAt
  }

  /** A new configuration: renumbered, and every vote is void. */
  ghost predicate Reconfigured(h: Host, h': Host)
  {
    Renumbered(h, h') && h'.room.configuration == h'.room.revision && h'.room.ready == {}
  }

  /** The state packet of a seat. */
  function StateFor(h: Host, i: int): Down
    requires Shape(h) && 0 <= i < SEATS
  {
    var l := h.links[i];
    Down(l.addr, h.room.epoch, l.id, l.sequence, h.room.revision,
         if h.room.starting == 0 then Roster(h.room) else Launch(h.room))
  }

  lemma FromIsOwner(h: Host, u: Up, i: int)
    requires HostOk(h) && From(h, u, i)
    ensures Owns(h, u) && SlotOf(h.room, u.id) == i
  {
    var s := SlotOf(h.room, u.id);
    assert h.room.members[i].id == u.id;
    assert s >= 0;
  }

  lemma OwnerIsFrom(h: Host, u: Up)
    requires HostOk(h) && Owns(h, u) && !u.body.Join?
    ensures u.source != 0 ==> From(h, u, SlotOf(h.room, u.id))
  {
  }

  // ---- leaving -----------------------------------------------------------------

  /** The event puts the guest of seat `i` out, for this reason. */
  predicate PutsOut(h: Host, e: HostEvent, i: int, reason: int)
    requires Shape(h)
  {
    && Linked(h, i) && i != h.room.hostSlot
    && ((e == Kick(i) && h.room.starting == 0 && reason == KICKED)
        || (e == Expire(i) && h.room.starting == 0 && reason == TIMEOUT)
        || (e.Receive? && e.u.body.Leave? && From(h, e.u, i) && reason == CLOSED))
  }

  /** The seat is empty, a start is off, the id and the reason are kept, and the guest is told. */
  lemma DepartureEffect(h: Host, e: HostEvent, i: int, reason: int)
    requires HostOk(h) && PutsOut(h, e, i, reason)
    ensures var o := HostStep(h, e);
      && o.sent == [Down(h.links[i].addr, h.room.epoch, h.links[i].id, 0, h.room.revision, Close(reason))]
      && Reconfigured(h, o.host)
      && o.host.room == h.room.(members := h.room.members[i := Member(0, [])], ready := {}, starting := 0, session := 0,
                                revision := o.host.room.revision, configuration := o.host.room.revision)
      && o.host.links == h.links[i := Link(0, 0, 0, 0, 0, 0)]
      && o.host.retired == h.retired[h.retiredAt := RetiredLink(h.links[i].id, h.links[i].addr, reason)]
      && o.host.retiredAt == (if h.retiredAt == 15 then 0 else h.retiredAt + 1)
      && o.host.id == h.id && o.host.password == h.password
      && o.host.chatSequence == h.chatSequence && o.host.chat == h.chat
  {
    DepartureIs(h, e, i, reason);
    hide HostOk, HostStep;
  }

  lemma DepartureIs(h: Host, e: HostEvent, i: int, reason: int)
    requires HostOk(h) && PutsOut(h, e, i, reason)
    ensures HostStep(h, e) == RemoveMember(h, i, reason)
  {
    if e.Receive? {
      FromIsOwner(h, e.u, i);
    }
    hide ValidRoom, LinkTable, NoneRetired, SlotOf, RemoveMember, RetiredFrom;
  }

  /** A kick or an expiry that puts nobody out does nothing. */
  lemma NobodyLeaves(h: Host, e: HostEvent)
    requires HostOk(h) && (e.Kick? || e.Expire?) && !exists i, reason :: PutsOut(h, e, i, reason)
    ensures HostStep(h, e) == HostOut(h, [])
  {
    if e.Kick? { assert !PutsOut(h, e, e.kicked, KICKED); } else { assert !PutsOut(h, e, e.expired, TIMEOUT); }
    hide ValidRoom, NoneRetired;
  }

  /** Whoever was removed and still talks is told why again, when it is due; the host stays as it is. */
  lemma RemovedAnswered(h: Host, u: Up, due: bool, k: int)
    requires HostOk(h) && !u.body.Join? && u.epoch == h.room.epoch
    requires forall i :: 0 <= i < h.room.maxSlots ==> h.room.members[i].id != u.id
    requires 0 <= k < RETIRED_MAX && h.retired[k].id == u.id && h.retired[k].addr == u.source
    requires forall j :: 0 <= j < k ==> h.retired[j].id != u.id || h.retired[j].addr != u.source
    ensures HostStep(h, Receive(u, due))
            == HostOut(h, if !due then []
                          else [Down(u.source, h.room.epoch, u.id, 0, h.room.revision, Close(h.retired[k].reason))])
  {
    assert SlotOf(h.room, u.id) < 0;
    assert RetiredFrom(h.retired, u.id, u.source, 0) == k;
  }

  /** A packet of nobody who holds a seat never changes the host. */
  lemma StrangersChangeNothing(h: Host, u: Up, due: bool)
    requires HostOk(h) && u.source != 0 && !u.body.Join? && !exists i :: From(h, u, i)
    ensures HostStep(h, Receive(u, due)).host == h
    ensures forall d :: d in HostStep(h, Receive(u, due)).sent ==> d.body.Close?
  {
    if Owns(h, u) { OwnerIsFrom(h, u); }
    hide ValidRoom, LinkTable, NoneRetired;
  }

  // ---- voting and moving -------------------------------------------------------

  /** A request of the guest in seat `i` that the host has not recorded yet. */
  predicate Fresh(h: Host, u: Up, i: int)
    requires Shape(h)
  {
    From(h, u, i) && u.body.Op? && u.sequence > h.links[i].sequence
  }

  /** The links with this request recorded. */
  function Recorded(h: Host, u: Up, i: int): seq<Link>
    requires Shape(h) && 0 <= i < SEATS
  {
    h.links[i := h.links[i].(sequence := u.sequence)]
  }

  /** A fresh request is recorded, applied, and answered with the roster it led to. */
  lemma FreshRequest(h: Host, u: Up, due: bool, i: int)
    requires HostOk(h) && Fresh(h, u, i)
    ensures var h' := ApplyOp(h.(links := Recorded(h, u, i)), i, u);
      var at := SlotOf(h'.room, u.id);
      HostStep(h, Receive(u, due)) == HostOut(h', if 0 <= at < |h'.links| then [SendState(h', at)] else [])
  {
    FromIsOwner(h, u, i);
    hide ApplyOp, SlotOf, ValidRoom, LinkTable, NoneRetired;
  }

  lemma StateSent(h: Host, i: int)
    requires Shape(h) && 0 <= i < SEATS
    ensures SendState(h, i) == StateFor(h, i)
  {
  }

  /** A fresh READY for the current configuration sets or clears the bit of its seat and no other. */
  lemma GuestVoteEffect(h: Host, u: Up, due: bool, i: int)
    requires HostOk(h) && Fresh(h, u, i) && h.room.starting == 0
    requires u.body.op == OP_READY && u.body.a <= 1 && u.body.c == h.room.configuration
    ensures var o := HostStep(h, Receive(u, due));
      && VoteCounted(h, o.host, i, u.body.a == 1) && o.host.links == Recorded(h, u, i)
      && o.sent == [StateFor(o.host, i)]
  {
    FreshRequest(h, u, due, i);
    FromIsOwner(h, u, i);
    hide HostOk, HostStep, SlotOf, SetReadyBit, SendState, MoveMember, VoteCounted, StateFor;
    var h1 := h.(links := Recorded(h, u, i));
    VoteEffect(h1, i, u.body.a == 1);
    SameSlot(h1, i, u.body.a == 1, u.id);
    StateSent(SetReadyBit(h1, i, u.body.a == 1), i);
  }

  lemma SameSlot(h: Host, i: int, ready: bool, id: u32)
    requires Shape(h) && 0 <= i < SEATS
    ensures SlotOf(SetReadyBit(h, i, ready).room, id) == SlotOf(h.room, id)
  {
    assert Seats(SetReadyBit(h, i, ready).room) == Seats(h.room);
  }

  /** The bit of seat `i` is now `ready`; a vote that changes nothing has no other effect, any other is published. */
  ghost predicate VoteCounted(h: Host, h': Host, i: int, ready: bool)
  {
    && (forall j: nat :: j in h'.room.ready <==> if j == i then ready else j in h.room.ready)
    && h'.room == h.room.(ready := h'.room.ready, revision := h'.room.revision) && Besides(h, h')
    && (if (i in h.room.ready) == ready
        then h'.room == h.room && h'.wantStart == h.wantStart && h'.status == h.status
        else Renumbered(h, h'))
  }

  lemma VoteEffect(h: Host, i: int, ready: bool)
    requires Shape(h) && 0 <= i < SEATS
    ensures VoteCounted(h, SetReadyBit(h, i, ready), i, ready)
    ensures SetReadyBit(h, i, ready).links == h.links
  {
    var mask := if ready then h.room.ready + {i} else h.room.ready - {i};
    assert (i in h.room.ready) == ready ==> mask == h.room.ready;
    assert (i in h.room.ready) != ready ==> mask != h.room.ready;
  }

  /** The host's own vote, refused while frozen. */
  lemma OwnVoteEffect(h: Host, ready: bool)
    requires HostOk(h)
    ensures var o := HostStep(h, SetReady(ready));
      && o.sent == [] && o.host.links == h.links
      && (h.room.starting != 0 ==> o.host == h)
      && (h.room.starting == 0 ==> VoteCounted(h, o.host, h.room.hostSlot, ready))
  {
    assert SlotOf(h.room, h.id) == h.room.hostSlot;
    VoteEffect(h, h.room.hostSlot, ready);
    hide ValidRoom, LinkTable, NoneRetired, SlotOf, SetReadyBit, VoteCounted;
  }

  /** Member and link change seats together, and every vote is void. */
  ghost predicate SeatMoved(h: Host, h': Host, links: seq<Link>, from: int, to: int)
    requires |links| == |h.room.members| == SEATS && 0 <= from < SEATS && 0 <= to < SEATS
  {
    && Reconfigured(h, h') && Besides(h, h')
    && h'.room == h.room.(members := h.room.members[from := Member(0, [])][to := h.room.members[from]],
                          hostSlot := if h.room.hostSlot == from then to else h.room.hostSlot, ready := {},
                          revision := h'.room.revision, configuration := h'.room.revision)
    && h'.links == links[from := Link(0, 0, 0, 0, 0, 0)][to := links[from]]
  }

  /** The move from one seat to another is possible: both exist, one is taken, the other free, and nothing is frozen. */
  predicate CanMove(h: Host, from: int, to: int)
    requires Shape(h)
  {
    && h.room.starting == 0 && 0 <= from < h.room.maxSlots && 0 <= to < h.room.maxSlots
    && h.room.members[from].id != 0 && h.room.members[to].id == 0
  }

  /** A move happens exactly when it is possible; otherwise nothing changes, and the code says why. */
  lemma MoveEffect(h: Host, from: int, to: int)
    requires HostOk(h)
    ensures var o := HostStep(h, Move(from, to));
      var code := MoveMember(h, from, to).status;
      var there := 0 <= from < h.room.maxSlots && 0 <= to < h.room.maxSlots && h.room.members[from].id != 0;
      && o.sent == []
      && (CanMove(h, from, to) ==> SeatMoved(h, o.host, h.links, from, to))
      && (!CanMove(h, from, to) ==> o.host == h)
      && (code == STARTED <==> h.room.starting != 0)
      && (code == ARGUMENT <==> h.room.starting == 0 && !there)
      && (code == OK <==> h.room.starting == 0 && there && (from == to || h.room.members[to].id == 0))
      && (code == OCCUPIED <==> h.room.starting == 0 && there && from != to && h.room.members[to].id != 0)
  {
    hide ValidRoom, LinkTable, NoneRetired;
    if CanMove(h, from, to) { MovedSeats(h, h.links, from, to); }
  }

  lemma MovedSeats(h: Host, links: seq<Link>, from: int, to: int)
    requires Shape(h) && CanMove(h, from, to) && links == h.links
    ensures SeatMoved(h, MoveMember(h, from, to).host, links, from, to)
  {
    var ms := h.room.members;
    assert ms[to := ms[from]][from := NO_MEMBER] == ms[from := Member(0, [])][to := ms[from]];
    assert links[to := links[from]][from := NO_LINK] == links[from := Link(0, 0, 0, 0, 0, 0)][to := links[from]];
  }

  /** A fresh MOVE of a guest out of its own seat, for the roster as it stands, moves it if that is possible. */
  lemma GuestMoveEffect(h: Host, u: Up, due: bool, i: int)
    requires HostOk(h) && Fresh(h, u, i)
    requires u.body.op == OP_MOVE && u.body.a == i && u.body.c < SEATS && u.revision == h.room.revision
    ensures var o := HostStep(h, Receive(u, due));
      var to := u.body.c;
      && (CanMove(h, i, to) ==> SeatMoved(h, o.host, Recorded(h, u, i), i, to) && o.sent == [StateFor(o.host, to)])
      && (!CanMove(h, i, to) ==> o.host == h.(links := Recorded(h, u, i)) && o.sent == [StateFor(o.host, i)])
  {
    FreshRequest(h, u, due, i);
    FromIsOwner(h, u, i);
    var to := u.body.c;
    var h1 := h.(links := Recorded(h, u, i));
    MovedSlot(h1, i, to, u.id);
    hide HostOk, HostStep, SlotOf, MoveMember, SendState, StateFor, SetReadyBit, Linked;
    MoveApplied(h1, i, u);
    if CanMove(h, i, to) {
      MovedSeats(h1, h1.links, i, to);
      StateSent(MoveMember(h1, i, to).host, to);
    } else {
      StateSent(h1, i);
    }
  }

  lemma MoveApplied(h: Host, i: nat, u: Up)
    requires Shape(h) && i < SEATS && u.body.Op?
    requires u.body.op == OP_MOVE && u.body.a == i && u.body.c < SEATS && u.revision == h.room.revision
    ensures h.room.starting == 0 ==> ApplyOp(h, i, u) == MoveMember(h, i, u.body.c).host
    ensures h.room.starting != 0 ==> ApplyOp(h, i, u) == h
  {
    hide MoveMember, SetReadyBit;
  }

  lemma MovedSlot(h: Host, from: int, to: int, id: u32)
    requires Shape(h) && SlotOf(h.room, id) == from && 0 <= to < SEATS && id != 0
    requires forall j :: 0 <= j < h.room.maxSlots && j != from ==> h.room.members[j].id != id
    ensures var h' := MoveMember(h, from, to).host;
      && (CanMove(h, from, to) ==> SlotOf(h'.room, id) == to)
      && (!CanMove(h, from, to) ==> h' == h)
  {
    var h' := MoveMember(h, from, to).host;
    if CanMove(h, from, to) {
      assert h.room.members[from].id == id;
      MovedSeats(h, h.links, from, to);
      assert h'.room.members[to] == h.room.members[from] && h'.room.maxSlots == h.room.maxSlots;
      assert forall j :: 0 <= j < h.room.maxSlots && j != to ==> h'.room.members[j].id != id;
      hide MoveMember;
      SlotIs(h'.room, id, to);
    }
  }

  lemma SlotIs(r: Room, id: u32, s: int)
    requires |r.members| == SEATS && 0 <= s < r.maxSlots <= SEATS && r.members[s].id == id
    requires forall j :: 0 <= j < r.maxSlots && j != s ==> r.members[j].id != id
    ensures SlotOf(r, id) == s
  {
    assert Seats(r)[s].id == id;
  }

  /** Any other fresh request is only recorded and answered. */
  lemma OtherRequest(h: Host, u: Up, due: bool, i: int)
    requires HostOk(h) && Fresh(h, u, i)
    requires !(h.room.starting == 0 && u.body.op == OP_READY && u.body.a <= 1 && u.body.c == h.room.configuration)
    requires !(u.body.op == OP_MOVE && u.body.a == i && u.body.c < SEATS && u.revision == h.room.revision)
    ensures var o := HostStep(h, Receive(u, due));
      o.host == h.(links := Recorded(h, u, i)) && o.sent == [StateFor(o.host, i)]
  {
    FreshRequest(h, u, due, i);
    FromIsOwner(h, u, i);
    hide HostOk, HostStep, SlotOf, SetReadyBit, MoveMember, SendState;
    StateSent(h.(links := Recorded(h, u, i)), i);
  }

  /** A request already recorded is answered, not applied again; one without a number is ignored. */
  lemma StaleRequest(h: Host, u: Up, due: bool, i: int)
    requires HostOk(h) && From(h, u, i) && u.body.Op? && u.sequence <= h.links[i].sequence
    ensures HostStep(h, Receive(u, due)) == HostOut(h, if u.sequence == 0 then [] else [StateFor(h, i)])
  {
    FromIsOwner(h, u, i);
    hide ValidRoom, LinkTable, NoneRetired, SlotOf, ApplyOp;
  }

  // ---- acknowledging -----------------------------------------------------------

  /** An acknowledgement counts for its own seat and for the roster as it stands; only START_ACK counts for a start. */
  lemma AckEffect(h: Host, u: Up, due: bool, i: int)
    requires HostOk(h) && From(h, u, i) && (u.body.Ack? || u.body.StartAck?)
    ensures var o := HostStep(h, Receive(u, due));
      && o.sent == [] && o.host == h.(links := h.links[i := o.host.links[i]])
      && var l, l' := h.links[i], o.host.links[i];
         && l' == l.(roomAck := l'.roomAck, startAck := l'.startAck)
         && l'.roomAck == (if u.revision == h.room.revision then u.revision else l.roomAck)
         && l'.startAck == (if u.revision == h.room.revision && u.body.StartAck? && h.room.starting != 0
                            then u.revision else l.startAck)
  {
    FromIsOwner(h, u, i);
    hide ValidRoom, LinkTable, NoneRetired, SlotOf;
  }

  // ---- configuring -------------------------------------------------------------

  /** New capabilities are taken exactly when the room is not frozen, the mod set fits and is printable, the numbers are
      in range, and something differs; every vote is then void. */
  lemma CapsEffect(h: Host, caps: Caps)
    requires HostOk(h)
    ensures var o := HostStep(h, SetCaps(caps));
      && o.sent == [] && o.host.links == h.links && Besides(h, o.host)
      && (if && h.room.starting == 0 && caps != h.room.caps
             && |caps.mods| < 512 && (forall k :: 0 <= k < |caps.mods| ==> 32 <= caps.mods[k] && caps.mods[k] != 127)
             && 2 <= caps.delay <= 20 && (caps.rollback == 0 || caps.rollback == 1)
             && 2 <= caps.prediction <= 16 && caps.variant >= 0
          then && Reconfigured(h, o.host)
               && o.host.room == h.room.(caps := caps, ready := {}, revision := o.host.room.revision,
                                         configuration := o.host.room.revision)
          else o.host == h)
  {
    var next := h.room.(caps := caps);
    assert Seats(next) == Seats(h.room);
    assert Occupied(next) == Occupied(h.room);
    hide LinkTable, NoneRetired, SeatTable, Occupied;
  }

  // ---- starting ----------------------------------------------------------------

  /** At least two seats are taken, and every taken seat has voted. */
  predicate Unanimous(r: Room)
    requires |r.members| == SEATS && 0 <= r.maxSlots <= SEATS
  {
    && (exists i, j :: 0 <= i < j < r.maxSlots && r.members[i].id != 0 && r.members[j].id != 0)
    && forall i :: 0 <= i < r.maxSlots && r.members[i].id != 0 ==> i in r.ready
  }

  lemma UnanimousIff(h: Host)
    requires HostOk(h)
    ensures AllReady(h.room) <==> Unanimous(h.room)
  {
    var all := Occupied(h.room);
    if i, j :| 0 <= i < j < h.room.maxSlots && h.room.members[i].id != 0 && h.room.members[j].id != 0 {
      assert {i, j} <= all && |{i, j}| == 2;
      SubsetSize({i, j}, all);
    }
    if |all| >= 2 {
      var host: nat := h.room.hostSlot;
      assert host in all;
      var rest := all - {host};
      assert |rest| == |all| - 1;
      var j :| j in rest;
      assert h.room.members[j].id != 0 && h.room.members[host].id != 0;
    }
  }

  lemma SubsetSize(a: set<nat>, b: set<nat>)
    requires a <= b
    ensures |a| <= |b|
  {
    assert b == a + (b - a);
  }

  /** A start is wanted once it is asked for in an open room where everybody is ready. */
  lemma StartEffect(h: Host)
    requires HostOk(h)
    ensures var o := HostStep(h, Start);
      && o.sent == [] && o.host == h.(wantStart := o.host.wantStart)
      && (o.host.wantStart <==> h.wantStart || (h.room.starting == 0 && Unanimous(h.room)))
  {
    UnanimousIff(h);
    hide HostOk, AllReady, Unanimous;
  }

  /** The start can begin: it is wanted, every linked seat has acknowledged this very roster, and everybody is ready. */
  ghost predicate Ripe(h: Host)
    requires Shape(h)
  {
    && h.wantStart && Unanimous(h.room)
    && forall i :: Linked(h, i) ==> h.links[i].roomAck == h.room.revision
  }

  /** The roster freezes exactly when the start is ripe and the drawn session is new; nothing in it but the session,
      the frozen mark and the number changes. */
  lemma BeginEffect(h: Host, session: u32)
    requires HostOk(h)
    ensures var o := HostStep(h, Begin(session));
      && o.sent == [] && o.host.links == h.links && Besides(h, o.host)
      && (!Ripe(h) ==> o.host == h)
      && (Ripe(h) && (session == 0 || session == h.room.session) ==> o.host == h.(status := IO))
      && (Ripe(h) && session != 0 && session != h.room.session ==>
            && Renumbered(h, o.host)
            && o.host.room == h.room.(session := session, starting := 1, revision := o.host.room.revision))
  {
    UnanimousIff(h);
    assert AllAcked(h) <==> forall i :: Linked(h, i) ==> h.links[i].roomAck == h.room.revision;
    hide HostOk, AllReady, Unanimous, AllAcked, Linked;
  }

  /** A frozen room may be launched once every linked seat has acknowledged the start; giving up before that fails. */
  lemma LaunchEffect(h: Host)
    requires Shape(h)
    ensures var all := forall i :: Linked(h, i) ==> h.links[i].startAck == h.room.revision;
      && (LaunchReady(h) <==> h.status >= 0 && h.room.starting != 0 && all)
      && HostStep(h, GiveUp)
         == HostOut(if h.room.starting != 0 && (h.status < 0 || !all) then h.(status := TIMEOUT) else h, [])
  {
  }

  // ---- telling everyone --------------------------------------------------------

  lemma {:induction false} StatesIff(h: Host, n: nat, d: Down)
    requires Shape(h) && n <= SEATS
    ensures d in States(h, n) <==> exists i :: 0 <= i < n && h.links[i].id != 0 && d == StateFor(h, i)
  {
    hide StateFor, SendState;
    if n > 0 {
      StatesIff(h, n - 1, d);
      StateSent(h, n - 1);
    }
  }

  lemma {:induction false} ClosesIff(h: Host, n: nat, d: Down)
    requires Shape(h) && n <= SEATS
    ensures d in Closes(h, n)
            <==> exists i :: && 0 <= i < n && h.links[i].id != 0
                             && d == Down(h.links[i].addr, h.room.epoch, h.links[i].id, 0, h.room.revision,
                                          Close(CLOSED))
  {
    if n > 0 { ClosesIff(h, n - 1, d); }
  }

  /** A resend tells every linked seat the state, and nobody else anything. */
  lemma ResendEffect(h: Host, d: Down)
    requires Shape(h)
    ensures HostStep(h, Resend).host == h
    ensures d in HostStep(h, Resend).sent <==> exists i :: Linked(h, i) && d == StateFor(h, i)
  {
    StatesIff(h, h.room.maxSlots, d);
    hide States, StateFor;
  }

  /** A closing host tells every linked seat, unless the room is being launched. */
  lemma ShutdownEffect(h: Host, d: Down)
    requires Shape(h)
    ensures HostStep(h, Shutdown).host == h
    ensures d in HostStep(h, Shutdown).sent
            <==> && !LaunchReady(h)
                 && exists i :: Linked(h, i)
                                && d == Down(h.links[i].addr, h.room.epoch, h.links[i].id, 0, h.room.revision,
                                             Close(CLOSED))
  {
    ClosesIff(h, h.room.maxSlots, d);
    hide Closes, LaunchReady;
  }
}
