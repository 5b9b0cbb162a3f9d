/** The LAN waiting room: what one packet or one call does to a host or a guest,
    written as functions on the value of the peer. */
module LanRoom {
  import opened Common

  const SEATS := 4
  const RETIRED_MAX := 16
  const CHAT_QUEUE := 16

  const OK := 0
  const IO := -1
  const FULL := -2
  const PASSWORD := -3
  const IDENTITY := -4
  const STARTED := -5
  const TIMEOUT := -6
  const ARGUMENT := -7
  const STALE := -8
  const NOT_READY := -9
  const KICKED := -10
  const CLOSED := -11
  const OCCUPIED := -12

  const OP_READY := 1
  const OP_MOVE := 2

  /** A socket address; 0 is the all-zero address of an unused link. */
  type Address = nat

  // ---- the roster ---------------------------------------------------------

  /** One seat of the roster; id 0 means empty. */
  datatype Member = Member(id: u32, name: Text)

  const NO_MEMBER := Member(0, [])

  datatype Caps = Caps(delay: int32, rollback: int32, prediction: int32, variant: int32, mods: Text)

  /** `ready` is the set of bit numbers of ready_mask. */
  datatype Room = Room(name: Text, game: Text, version: Text, endpoint: Text, caps: Caps,
                       epoch: u32, revision: u32, configuration: u32, session: u32, ready: set<nat>,
                       maxSlots: int32, hostSlot: int32, starting: int32, members: seq<Member>)

  /** The seats a room uses: the first maxSlots of its table. */
  function Seats(r: Room): (s: seq<Member>)
    ensures |s| <= |r.members|
    ensures forall i :: 0 <= i < |s| ==> s[i] == r.members[i]
  {
    if 0 <= r.maxSlots <= |r.members| then r.members[..r.maxSlots] else r.members
  }

  /** First seat at or after `from` that holds `id`, or -1. */
  function FindFrom(seats: seq<Member>, id: u32, from: nat): (s: int)
    requires from <= |seats|
    ensures -1 <= s < |seats|
    ensures s >= 0 ==> from <= s && seats[s].id == id && forall i :: from <= i < s ==> seats[i].id != id
    ensures s < 0 ==> forall i :: from <= i < |seats| ==> seats[i].id != id
    decreases |seats| - from
  {
    if from == |seats| then -1
    else if seats[from].id == id then from
    else FindFrom(seats, id, from + 1)
  }

  /** First seat that holds `id`, or -1; SlotOf(r, 0) is the first free seat. */
  function SlotOf(r: Room, id: u32): (s: int)
    ensures -1 <= s < |Seats(r)|
    ensures s >= 0 ==> r.members[s].id == id && forall i :: 0 <= i < s ==> r.members[i].id != id
    ensures s < 0 ==> forall i :: 0 <= i < |Seats(r)| ==> r.members[i].id != id
  {
    FindFrom(Seats(r), id, 0)
  }

  function Occupied(r: Room): (s: set<nat>)
    ensures forall i :: i in s <==> 0 <= i < |Seats(r)| && r.members[i].id != 0
  {
    set i: nat | i < |Seats(r)| && r.members[i].id != 0
  }

  /** The seat table: seats past maxSlots are empty, members are named, ids are unique, the host is seated. */
  predicate SeatTable(ms: seq<Member>, maxSlots: int, hostSlot: int)
  {
    && |ms| == SEATS && 2 <= maxSlots <= SEATS && 0 <= hostSlot < maxSlots && ms[hostSlot].id != 0
    && (forall i :: maxSlots <= i < SEATS ==> ms[i].id == 0)
    && (forall i :: 0 <= i < SEATS && ms[i].id != 0 ==> ms[i].name != [])
    && (forall i, j :: 0 <= i < j < SEATS && ms[i].id != 0 ==> ms[i].id != ms[j].id)
  }

  predicate RoomNumbers(r: Room)
  {
    && r.epoch != 0 && r.revision != 0 && r.configuration != 0 && r.configuration <= r.revision
    && 2 <= r.caps.delay <= 20 && 0 <= r.caps.rollback <= 1 && 2 <= r.caps.prediction <= 16
    && r.caps.variant >= 0 && 0 <= r.starting <= 1 && (r.starting != 0 ==> r.session != 0)
    && r.game != [] && r.version != [] && r.endpoint != []
  }

  predicate ValidRoom(r: Room)
  {
    RoomNumbers(r) && SeatTable(r.members, r.maxSlots, r.hostSlot) && r.ready <= Occupied(r)
  }

  predicate AllReady(r: Room)
  {
    |Occupied(r)| >= 2 && Occupied(r) <= r.ready
  }

  // ---- packets ------------------------------------------------------------

  datatype UpBody =
    | Join(game: Text, version: Text, password: Text, name: Text, supported: int32)
    | Ack
    | StartAck
    | Op(op: u32, a: u32, c: u32)
    | Leave
    | ChatRequest(text: Text)

  /** A packet from a guest to the host. */
  datatype Up = Up(source: Address, epoch: u32, id: u32, sequence: u32, revision: u32, body: UpBody)

  datatype DownBody =
    | Roster(room: Room)
    | Launch(room: Room)
    | Nak(status: int)
    | Close(status: int)
    | ChatEcho(line: ChatLine)

  /** A packet from the host to the guest with this id at this address. */
  datatype Down = Down(dest: Address, epoch: u32, id: u32, sequence: u32, revision: u32, body: DownBody)

  datatype ChatLine = ChatLine(player: u32, from: Text, text: Text)

  /** The roster a state packet announces, as the receiver rebuilds it from body and header. */
  function Announced(d: Down): Room
    requires d.body.Roster? || d.body.Launch?
  {
    d.body.room.(epoch := d.epoch, revision := d.revision)
  }

  predicate IsState(d: Down)
  {
    d.body.Roster? || d.body.Launch?
  }

  // ---- the host -----------------------------------------------------------

  datatype Link = Link(id: u32, addr: Address, sequence: u32, roomAck: u32, startAck: u32, chatSequence: u32)

  const NO_LINK := Link(0, 0, 0, 0, 0, 0)

  datatype RetiredLink = RetiredLink(id: u32, addr: Address, reason: int)

  datatype Host = Host(id: u32, room: Room, links: seq<Link>, retired: seq<RetiredLink>, retiredAt: nat,
                       status: int, wantStart: bool, password: Text, chatSequence: u32, chat: seq<ChatLine>)

  datatype HostOut = HostOut(host: Host, sent: seq<Down>)

  /** The fixed sizes of the host's tables. */
  predicate Shape(h: Host)
  {
    && |h.links| == SEATS && |h.room.members| == SEATS && |h.retired| == RETIRED_MAX && h.retiredAt < RETIRED_MAX
    && 2 <= h.room.maxSlots <= 4 && 0 <= h.room.hostSlot < h.room.maxSlots
  }

  function Changed(h: Host): (r: Host)
    ensures Shape(h) ==> Shape(r)
  {
    if h.room.revision == U32_MAX then h.(status := CLOSED)
    else h.(room := h.room.(revision := h.room.revision + 1), wantStart := false)
  }

  function ConfigurationChanged(h: Host): (r: Host)
    ensures Shape(h) ==> Shape(r)
  {
    var c := Changed(h);
    c.(room := c.room.(configuration := c.room.revision, ready := {}))
  }

  function SendState(h: Host, slot: nat): Down
    requires slot < |h.links|
  {
    var l := h.links[slot];
    Down(l.addr, h.room.epoch, l.id, l.sequence, h.room.revision,
         if h.room.starting != 0 then Launch(h.room) else Roster(h.room))
  }

  /** A header-only packet; a host's own sequence number is always 0. */
  function SendSimple(h: Host, dest: Address, id: u32, body: DownBody): Down
  {
    Down(dest, h.room.epoch, id, 0, h.room.revision, body)
  }

  function RemoveMember(h: Host, slot: nat, reason: int): (r: HostOut)
    requires Shape(h) && slot < SEATS
    ensures Shape(r.host)
  {
    var l := h.links[slot];
    var gone := h.(retired := h.retired[h.retiredAt := RetiredLink(l.id, l.addr, reason)],
                   retiredAt := (h.retiredAt + 1) % RETIRED_MAX,
                   links := h.links[slot := NO_LINK],
                   room := h.room.(members := h.room.members[slot := NO_MEMBER], ready := h.room.ready - {slot},
                                   starting := 0, session := 0));
    HostOut(ConfigurationChanged(gone), [SendSimple(h, l.addr, l.id, Close(reason))])
  }

  datatype MoveOut = MoveOut(host: Host, status: int)

  function MoveMember(h: Host, from: int, to: int): (r: MoveOut)
    requires Shape(h)
    ensures Shape(r.host)
  {
    if h.room.starting != 0 then MoveOut(h, STARTED)
    else if !(0 <= from < h.room.maxSlots) || !(0 <= to < h.room.maxSlots) || h.room.members[from].id == 0
    then MoveOut(h, ARGUMENT)
    else if from == to then MoveOut(h, OK)
    else if h.room.members[to].id != 0 then MoveOut(h, OCCUPIED)
    else
      var room := h.room.(members := h.room.members[to := h.room.members[from]][from := NO_MEMBER],
                          hostSlot := if h.room.hostSlot == from then to else h.room.hostSlot);
      MoveOut(ConfigurationChanged(h.(room := room, links := h.links[to := h.links[from]][from := NO_LINK])), OK)
  }

  /** The drop-oldest queue behind take_chat. */
  function Queued(q: seq<ChatLine>, line: ChatLine): (r: seq<ChatLine>)
  {
    if |q| < CHAT_QUEUE then q + [line] else q[|q| - CHAT_QUEUE + 1..] + [line]
  }

  /** One echo to every linked seat below `n`, in seat order. */
  function Echoes(h: Host, line: ChatLine, n: nat): seq<Down>
    requires n <= |h.links|
  {
    if n == 0 then []
    else
      var l := h.links[n - 1];
      Echoes(h, line, n - 1)
      + (if l.id == 0 then []
         else [Down(l.addr, h.room.epoch, l.id, h.chatSequence, h.room.revision, ChatEcho(line))])
  }

  function Broadcast(h: Host, sender: nat, text: Text): (r: HostOut)
    requires Shape(h) && sender < SEATS
    ensures Shape(r.host)
  {
    if h.chatSequence == U32_MAX then HostOut(h, [])
    else
      var line := ChatLine(h.room.members[sender].id, h.room.members[sender].name, text);
      var h' := h.(chatSequence := h.chatSequence + 1, chat := Queued(h.chat, line));
      HostOut(h', Echoes(h', line, h.room.maxSlots))
  }

  predicate IsRetired(h: Host, id: u32)
  {
    exists r :: r in h.retired && r.id == id
  }

  predicate AddressTaken(h: Host, a: Address)
    requires Shape(h)
  {
    exists i :: 0 <= i < h.room.maxSlots && h.links[i].id != 0 && h.links[i].addr == a
  }

  /** The answer to a JOIN from an id that holds no matching seat; 0 admits it. */
  function JoinStatus(h: Host, u: Up): int
    requires Shape(h) && u.body.Join?
  {
    var j := u.body;
    if IsRetired(h, u.id) then STALE
    else if j.game != h.room.game || j.version != h.room.version || j.supported < h.room.maxSlots then IDENTITY
    else if j.password != h.password then PASSWORD
    else if h.room.starting != 0 then STARTED
    else if SlotOf(h.room, u.id) >= 0 then IDENTITY
    else if AddressTaken(h, u.source) then IDENTITY
    else if SlotOf(h.room, 0) < 0 then FULL
    else OK
  }

  /** A repeated JOIN by the owner of a seat, from the same address, is answered with the roster. */
  predicate Rejoins(h: Host, u: Up)
    requires Shape(h) && u.body.Join?
  {
    var j := u.body;
    var slot := SlotOf(h.room, u.id);
    && !IsRetired(h, u.id)
    && j.game == h.room.game && j.version == h.room.version && j.supported >= h.room.maxSlots
    && j.password == h.password && h.room.starting == 0
    && slot >= 0 && slot != h.room.hostSlot && h.links[slot].addr == u.source
  }

  function Seat(h: Host, slot: nat, id: u32, addr: Address, name: Text): (r: Host)
    requires Shape(h) && slot < SEATS
    ensures Shape(r)
  {
    ConfigurationChanged(h.(room := h.room.(members := h.room.members[slot := Member(id, name)]),
                            links := h.links[slot := h.links[slot].(id := id, addr := addr)]))
  }

  function HostJoin(h: Host, u: Up): (r: HostOut)
    requires Shape(h) && u.body.Join?
    ensures Shape(r.host)
  {
    var j := u.body;
    if u.id == 0 || j.name == [] then HostOut(h, [])
    else if Rejoins(h, u) then HostOut(h, [SendState(h, SlotOf(h.room, u.id))])
    else
      var status := JoinStatus(h, u);
      if status != OK then HostOut(h, [SendSimple(h, u.source, u.id, Nak(status))])
      else
        var slot := SlotOf(h.room, 0);
        var h' := Seat(h, slot, u.id, u.source, j.name);
        HostOut(h', [SendState(h', slot)])
  }

  function HostAck(h: Host, slot: nat, revision: u32, start: bool): (r: Host)
    requires Shape(h) && slot < SEATS
    ensures Shape(r)
  {
    if revision != h.room.revision then h
    else
      var l := h.links[slot].(roomAck := revision);
      h.(links := h.links[slot := if start && h.room.starting != 0 then l.(startAck := revision) else l])
  }

  function SetReadyBit(h: Host, slot: nat, ready: bool): (r: Host)
    ensures Shape(h) ==> Shape(r)
  {
    var mask := if ready then h.room.ready + {slot} else h.room.ready - {slot};
    if mask == h.room.ready then h else Changed(h.(room := h.room.(ready := mask)))
  }

  /** The body of a recorded request; the status it computes is sent but never read by a guest. */
  function ApplyOp(h: Host, slot: nat, u: Up): (r: Host)
    requires Shape(h) && slot < SEATS && u.body.Op?
    ensures Shape(r)
  {
    var o := u.body;
    if h.room.starting != 0 then h
    else if o.op == OP_READY && o.a <= 1 && o.c == h.room.configuration then SetReadyBit(h, slot, o.a == 1)
    else if u.revision != h.room.revision || (o.op == OP_READY && o.c != h.room.configuration) then h
    else if o.op == OP_MOVE && o.a == slot && o.c < SEATS then MoveMember(h, slot, o.c).host
    else h
  }

  function HostOp(h: Host, slot: nat, u: Up): (r: HostOut)
    requires Shape(h) && slot < SEATS && u.body.Op?
    ensures Shape(r.host)
  {
    if u.sequence == 0 then HostOut(h, [])
    else if u.sequence <= h.links[slot].sequence then HostOut(h, [SendState(h, slot)])
    else
      var h' := ApplyOp(h.(links := h.links[slot := h.links[slot].(sequence := u.sequence)]), slot, u);
      var at := SlotOf(h'.room, u.id);
      HostOut(h', if 0 <= at < |h'.links| then [SendState(h', at)] else [])
  }

  function HostChat(h: Host, slot: nat, u: Up): (r: HostOut)
    requires Shape(h) && slot < SEATS && u.body.ChatRequest?
    ensures Shape(r.host)
  {
    if u.body.text == [] || u.sequence == 0 || u.sequence <= h.links[slot].chatSequence then HostOut(h, [])
    else Broadcast(h.(links := h.links[slot := h.links[slot].(chatSequence := u.sequence)]), slot, u.body.text)
  }

  /** First retired entry at or after `from` for this id and address, or -1. */
  function RetiredFrom(retired: seq<RetiredLink>, id: u32, a: Address, from: nat): (s: int)
    requires from <= |retired|
    ensures -1 <= s < |retired|
    ensures s >= 0 ==> from <= s && retired[s].id == id && retired[s].addr == a
    ensures s >= 0 ==> forall i :: from <= i < s ==> retired[i].id != id || retired[i].addr != a
    ensures s < 0 ==> forall i :: from <= i < |retired| ==> retired[i].id != id || retired[i].addr != a
    decreases |retired| - from
  {
    if from == |retired| then -1
    else if retired[from].id == id && retired[from].addr == a then from
    else RetiredFrom(retired, id, a, from + 1)
  }

  /** The sender of `u` owns a guest seat. */
  predicate Owns(h: Host, u: Up)
    requires Shape(h)
  {
    var slot := SlotOf(h.room, u.id);
    u.epoch == h.room.epoch && slot >= 0 && slot != h.room.hostSlot && h.links[slot].addr == u.source
  }

  /** One packet at the host. `due` says whether a removed owner's reply timer has run out. */
  function HostReceive(h: Host, u: Up, due: bool): (r: HostOut)
    requires Shape(h)
    ensures Shape(r.host)
  {
    if u.body.Join? then HostJoin(h, u)
    else
      var slot := SlotOf(h.room, u.id);
      var gone := RetiredFrom(h.retired, u.id, u.source, 0);
      if u.epoch == h.room.epoch && slot < 0 && gone >= 0 then
        HostOut(h, if due then [SendSimple(h, u.source, u.id, Close(h.retired[gone].reason))] else [])
      else if !Owns(h, u) then HostOut(h, [])
      else match u.body
        case Ack => HostOut(HostAck(h, slot, u.revision, false), [])
        case StartAck => HostOut(HostAck(h, slot, u.revision, true), [])
        case Leave => RemoveMember(h, slot, CLOSED)
        case Op(_, _, _) => HostOp(h, slot, u)
        case ChatRequest(_) => HostChat(h, slot, u)
  }

  predicate AllAcked(h: Host)
    requires Shape(h)
  {
    forall i :: 0 <= i < h.room.maxSlots && h.links[i].id != 0 ==> h.links[i].roomAck == h.room.revision
  }

  /** The freeze: pump's want_start block, given the random session number it drew. */
  function HostBegin(h: Host, session: u32): (r: Host)
    requires Shape(h)
    ensures Shape(r)
  {
    if !h.wantStart || !AllAcked(h) || !AllReady(h.room) then h
    else if session == 0 || session == h.room.session then h.(status := IO)
    else
      var c := Changed(h.(room := h.room.(session := session)));
      c.(room := c.room.(starting := 1))
  }

  predicate LaunchReady(h: Host)
    requires Shape(h)
  {
    && h.status >= 0 && h.room.starting != 0
    && forall i :: 0 <= i < h.room.maxSlots && h.links[i].id != 0 ==> h.links[i].startAck == h.room.revision
  }

  /** A state packet to every linked seat below `n`, in seat order. */
  function States(h: Host, n: nat): seq<Down>
    requires n <= |h.links|
  {
    if n == 0 then []
    else States(h, n - 1) + (if h.links[n - 1].id == 0 then [] else [SendState(h, n - 1)])
  }

  /** A CLOSE to every linked seat below `n`: what a closing host sends. */
  function Closes(h: Host, n: nat): seq<Down>
    requires n <= |h.links|
  {
    if n == 0 then []
    else
      var l := h.links[n - 1];
      Closes(h, n - 1) + (if l.id == 0 then [] else [SendSimple(h, l.addr, l.id, Close(CLOSED))])
  }

  function HostExpire(h: Host, slot: int): (r: HostOut)
    requires Shape(h)
    ensures Shape(r.host)
  {
    if h.room.starting == 0 && 0 <= slot < h.room.maxSlots && h.links[slot].id != 0
    then RemoveMember(h, slot, TIMEOUT) else HostOut(h, [])
  }

  function HostSetReady(h: Host, ready: bool): (r: Host)
    requires Shape(h)
    ensures Shape(r)
  {
    var slot := SlotOf(h.room, h.id);
    if h.room.starting != 0 || slot < 0 then h else SetReadyBit(h, slot, ready)
  }

  function HostKick(h: Host, slot: int): (r: HostOut)
    requires Shape(h)
    ensures Shape(r.host)
  {
    if !(0 <= slot < h.room.maxSlots) || slot == h.room.hostSlot || h.links[slot].id == 0 || h.room.starting != 0
    then HostOut(h, []) else RemoveMember(h, slot, KICKED)
  }

  /** The characters copy_string accepts. */
  predicate Printable(t: Text)
  {
    forall i :: 0 <= i < |t| ==> 32 <= t[i] && t[i] != 127
  }

  function HostSetCaps(h: Host, caps: Caps): (r: Host)
    requires Shape(h)
    ensures Shape(r)
  {
    var next := h.room.(caps := caps);
    if h.room.starting != 0 || |caps.mods| >= 512 || !Printable(caps.mods) || !ValidRoom(next) || next == h.room then h
    else ConfigurationChanged(h.(room := next))
  }

  function HostStart(h: Host): (r: Host)
    requires Shape(h)
    ensures Shape(r)
  {
    if h.room.starting != 0 || !AllReady(h.room) then h else h.(wantStart := true)
  }

  function HostSay(h: Host, text: Text): (r: HostOut)
    requires Shape(h)
    ensures Shape(r.host)
  {
    var slot := SlotOf(h.room, h.id);
    if h.status < 0 || |text| >= 256 || !Printable(text) || text == [] || slot < 0 then HostOut(h, [])
    else Broadcast(h, slot, text)
  }

  function TakeChat(q: seq<ChatLine>): seq<ChatLine>
  {
    if q == [] then [] else q[1..]
  }

  /** Everything that can happen at a host: a packet, the branches of its pump, its calls. */
  datatype HostEvent =
    | Receive(u: Up, due: bool)
    | Expire(expired: int)
    | Begin(drawn: u32)
    | GiveUp
    | Resend
    | SetReady(ready: bool)
    | Move(from: int, to: int)
    | Kick(kicked: int)
    | SetCaps(caps: Caps)
    | Start
    | Say(text: Text)
    | Take
    | Shutdown

  function HostStep(h: Host, e: HostEvent): (o: HostOut)
    requires Shape(h)
    ensures Shape(o.host)
  {
    match e
    case Receive(u, due) => HostReceive(h, u, due)
    case Expire(slot) => HostExpire(h, slot)
    case Begin(session) => HostOut(HostBegin(h, session), [])
    case GiveUp => HostOut(if h.room.starting != 0 && !LaunchReady(h) then h.(status := TIMEOUT) else h, [])
    case Resend => HostOut(h, States(h, h.room.maxSlots))
    case SetReady(ready) => HostOut(HostSetReady(h, ready), [])
    case Move(from, to) => HostOut(MoveMember(h, from, to).host, [])
    case Kick(slot) => HostKick(h, slot)
    case SetCaps(caps) => HostOut(HostSetCaps(h, caps), [])
    case Start => HostOut(HostStart(h), [])
    case Say(text) => HostSay(h, text)
    case Take => HostOut(h.(chat := TakeChat(h.chat)), [])
    case Shutdown => HostOut(h, if LaunchReady(h) then [] else Closes(h, h.room.maxSlots))
  }

  /** Every text ends inside its array: what write_room() needs of a roster. */
  predicate TextsFit(r: Room)
  {
    && |r.name| < 96 && |r.game| < 64 && |r.version| < 32 && |r.endpoint| < 64 && |r.caps.mods| < 512
    && forall i :: 0 <= i < |r.members| ==> |r.members[i].name| < 64
  }

  /** A newly opened host, or nothing when the configuration is refused. */
  function HostOpen(id: u32, config: Room, password: Text): Option<Host>
  {
    if !(2 <= config.maxSlots <= 4) || !(0 <= config.hostSlot < config.maxSlots) || |config.members| != SEATS || id == 0
    then None
    else
      var me := config.members[config.hostSlot].name;
      var empty := [NO_MEMBER, NO_MEMBER, NO_MEMBER, NO_MEMBER];
      var room := config.(members := empty[config.hostSlot := Member(id, me)], epoch := id, revision := 1,
                          configuration := 1, ready := {}, session := 0, starting := 0);
      if |me| >= 64 || !Printable(me) || |password| >= 64 || !Printable(password)
         || !ValidRoom(room) || !TextsFit(room) then None
      else Some(Host(id, room, seq(SEATS, _ => NO_LINK), seq(RETIRED_MAX, _ => RetiredLink(0, 0, 0)), 0,
                     OK, false, password, 0, []))
  }

  // ---- the guest ----------------------------------------------------------

  datatype Pending = Pending(op: u32, a: u32, b: u32, revision: u32)

  datatype Guest = Guest(id: u32, addr: Address, game: Text, version: Text, password: Text, name: Text,
                         supported: int32, open: bool, status: int, joined: bool, sequence: u32,
                         pending: Option<Pending>, room: Room, startSeen: bool,
                         chatSequence: u32, chatSeen: u32, chat: seq<ChatLine>)

  datatype GuestOut = GuestOut(guest: Guest, sent: seq<Up>)

  function GuestSimple(g: Guest, body: UpBody): Up
  {
    Up(g.addr, g.room.epoch, g.id, g.sequence, g.room.revision, body)
  }

  /** Adopting an announced roster; `start` says the packet was a START. */
  function Adopt(g: Guest, next: Room, start: bool, sequence: u32): GuestOut
  {
    var launching := start && next.starting != 0;
    var g' := g.(startSeen := if launching then true else if next.starting == 0 then false else g.startSeen,
                 room := next, joined := true, status := OK,
                 pending := if sequence >= g.sequence then None else g.pending);
    GuestOut(g', [GuestSimple(g', if launching then StartAck else Ack)])
  }

  /** The roster differs from the one held for the same revision: the host contradicted itself. */
  predicate Contradicts(g: Guest, next: Room)
  {
    g.joined && next.revision == g.room.revision && next != g.room
  }

  predicate Acceptable(g: Guest, next: Room)
  {
    ValidRoom(next) && next.maxSlots <= g.supported && next.game == g.game && next.version == g.version
  }

  function GuestState(g: Guest, d: Down): GuestOut
    requires IsState(d)
  {
    var next := Announced(d);
    if !Acceptable(g, next) then GuestOut(g, [])
    else if g.joined && next.revision < g.room.revision then GuestOut(g, [])
    else if Contradicts(g, next) then GuestOut(g.(status := IDENTITY), [])
    else if SlotOf(next, g.id) < 0 then GuestOut(g.(status := KICKED), [])
    else Adopt(g, next, d.body.Launch?, d.sequence)
  }

  function GuestEcho(g: Guest, d: Down): Guest
    requires d.body.ChatEcho?
  {
    var line := d.body.line;
    if line.player == 0 || line.text == [] || d.sequence <= g.chatSeen then g
    else g.(chatSeen := d.sequence, chat := Queued(g.chat, line))
  }

  /** One packet at a guest. */
  function GuestReceive(g: Guest, d: Down): GuestOut
  {
    if d.id != g.id then GuestOut(g, [])
    else if d.body.Nak? && !g.joined then
      GuestOut(g.(status := if d.body.status < 0 then d.body.status else IDENTITY), [])
    else if g.joined && d.epoch != g.room.epoch then GuestOut(g, [])
    else if d.body.Close? && g.joined then
      GuestOut(g.(status := if d.body.status < 0 then d.body.status else CLOSED), [])
    else if d.body.ChatEcho? && g.joined then GuestOut(GuestEcho(g, d), [])
    else if !IsState(d) then GuestOut(g, [])
    else GuestState(g, d)
  }

  /** What an unanswered guest repeats. */
  function GuestSend(g: Guest): Up
  {
    if !g.joined then Up(g.addr, 0, g.id, 0, 0, Join(g.game, g.version, g.password, g.name, g.supported))
    else if g.pending.Some? then
      var p := g.pending.value;
      Up(g.addr, g.room.epoch, g.id, g.sequence, p.revision, Op(p.op, p.a, p.b))
    else GuestSimple(g, if g.room.starting != 0 then StartAck else Ack)
  }

  function Request(g: Guest, op: u32, a: u32, b: u32): Guest
  {
    if !g.joined || g.status < 0 || g.room.starting != 0 || g.sequence == U32_MAX then g
    else g.(sequence := g.sequence + 1, pending := Some(Pending(op, a, b, g.room.revision)))
  }

  function GuestSetReady(g: Guest, ready: bool): Guest
  {
    if !g.joined || g.room.starting != 0 then g
    else Request(g, OP_READY, if ready then 1 else 0, g.room.configuration)
  }

  function GuestMove(g: Guest, from: int, to: int): Guest
  {
    if !g.joined || from != SlotOf(g.room, g.id) || !(0 <= to < g.room.maxSlots) || to >= |g.room.members|
       || g.room.members[to].id != 0 || from < 0
    then g
    else Request(g, OP_MOVE, from, to)
  }

  function GuestSay(g: Guest, text: Text): GuestOut
  {
    if !g.joined || g.status < 0 || |text| >= 256 || !Printable(text) || text == [] || g.chatSequence == U32_MAX
    then GuestOut(g, [])
    else
      var g' := g.(chatSequence := g.chatSequence + 1);
      GuestOut(g', [Up(g.addr, g.room.epoch, g.id, g'.chatSequence, g.room.revision, ChatRequest(text))])
  }

  /** Everything that can happen at a guest. `Quit(true)` is a close after the launch handoff delay. */
  datatype GuestEvent =
    | Hear(d: Down)
    | Repeat
    | LoseHost
    | Vote(ready: bool)
    | Claim(from: int, to: int)
    | Speak(text: Text)
    | TakeLine
    | Quit(handedOff: bool)

  function GuestStep(g: Guest, e: GuestEvent): GuestOut
  {
    match e
    case Hear(d) => GuestReceive(g, d)
    case Repeat => GuestOut(g, [GuestSend(g)])
    case LoseHost => GuestOut(g.(status := TIMEOUT), [])
    case Vote(ready) => GuestOut(GuestSetReady(g, ready), [])
    case Claim(from, to) => GuestOut(GuestMove(g, from, to), [])
    case Speak(text) => GuestSay(g, text)
    case TakeLine => GuestOut(g.(chat := TakeChat(g.chat)), [])
    case Quit(handedOff) =>
      var launched := handedOff && g.joined && g.status >= 0 && g.room.starting != 0 && g.startSeen;
      GuestOut(g.(open := false), if !launched && g.joined then [GuestSimple(g, Leave)] else [])
  }

  const NO_ROOM := Room([], [], [], [], Caps(0, 0, 0, 0, []), 0, 0, 0, 0, {}, 0, 0, 0,
                       [NO_MEMBER, NO_MEMBER, NO_MEMBER, NO_MEMBER])

  function GuestOpen(id: u32, addr: Address, game: Text, version: Text, password: Text, name: Text,
                     supported: int32): Option<Guest>
  {
    if !(2 <= supported <= 4) || id == 0 || game == [] || version == [] || name == []
       || |game| >= 64 || |version| >= 32 || |password| >= 64 || |name| >= 64
       || !Printable(game) || !Printable(version) || !Printable(password) || !Printable(name)
    then None
    else Some(Guest(id, addr, game, version, password, name, supported,
                    true, 1, false, 0, None, NO_ROOM, false, 0, 0, []))
  }
}
