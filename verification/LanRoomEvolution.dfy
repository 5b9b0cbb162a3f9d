/** How one host step may change the roster, the links and the ready mask. */
module LanRoomEvolution {
  import opened Common
  import opened LanRoom
  import opened LanRoomHost

  // ---- the roster ---------------------------------------------------------

  /** What a configuration number stands for: the roster without its revision, ready mask and start state. */
  function Core(r: Room): Room
  {
    r.(revision := 0, ready := {}, session := 0, starting := 0)
  }

  /** Either nothing changed, or the revision went up by one and the configuration was kept or renewed;
      a full revision counter stays put. */
  ghost predicate RoomEvolves(r: Room, r': Room)
  {
    || r' == r
    || (r.revision == U32_MAX && r'.revision == U32_MAX && r'.epoch == r.epoch)
    || (r.revision < U32_MAX && r'.revision == r.revision + 1 && r'.epoch == r.epoch
        && ((r'.configuration == r.configuration && Core(r') == Core(r))
            || (r'.configuration == r'.revision && r'.ready == {} && r'.starting == 0)))
  }

  lemma MoveEvolves(h: Host, from: int, to: int)
    requires HostOk(h)
    ensures RoomEvolves(h.room, MoveMember(h, from, to).host.room)
  {
  }

  lemma OpEvolves(h: Host, slot: nat, u: Up)
    requires HostOk(h) && slot < SEATS && h.links[slot].id != 0 && u.body.Op?
    ensures RoomEvolves(h.room, HostOp(h, slot, u).host.room)
  {
    if u.sequence > h.links[slot].sequence {
      var l := h.links[slot].(sequence := u.sequence);
      LinkUpdateOk(h, slot, l);
      MoveEvolves(h.(links := h.links[slot := l]), slot, u.body.c);
    }
  }

  lemma ReceiveEvolves(h: Host, u: Up, due: bool)
    requires HostOk(h) && u.source != 0
    ensures RoomEvolves(h.room, HostReceive(h, u, due).host.room)
  {
    if !u.body.Join? && Owns(h, u) {
      var slot := SlotOf(h.room, u.id);
      assert h.links[slot].id != 0;
      if u.body.Op? { OpEvolves(h, slot, u); }
    }
  }

  lemma StepEvolves(h: Host, e: HostEvent)
    requires HostOk(h) && (e.Receive? ==> e.u.source != 0)
    ensures RoomEvolves(h.room, HostStep(h, e).host.room)
  {
    hide HostReceive, MoveMember, AllReady, AllAcked, LaunchReady, ValidRoom, States, Closes, Echoes, Occupied;
    match e
    case Receive(u, due) => ReceiveEvolves(h, u, due);
    case Move(from, to) => MoveEvolves(h, from, to);
    case _ =>
  }

  /** What a room keeps for life. */
  predicate Fixed(r: Room, r': Room)
  {
    r'.game == r.game && r'.version == r.version && r'.maxSlots == r.maxSlots
  }

  lemma ReceiveFixed(h: Host, u: Up, due: bool)
    requires Shape(h)
    ensures HostReceive(h, u, due).host.id == h.id && Fixed(h.room, HostReceive(h, u, due).host.room)
  {
    hide SlotOf, RetiredFrom, Occupied, JoinStatus, Rejoins, Echoes, HostOp, HostJoin, RemoveMember;
    if u.body.Join? { JoinFixed(h, u); }
    else if Owns(h, u) {
      var slot := SlotOf(h.room, u.id);
      if u.body.Op? { OpFixed(h, slot, u); }
      if u.body.Leave? { RemoveFixed(h, slot, CLOSED); }
    }
  }

  lemma RemoveFixed(h: Host, slot: nat, reason: int)
    requires Shape(h) && slot < SEATS
    ensures RemoveMember(h, slot, reason).host.id == h.id && Fixed(h.room, RemoveMember(h, slot, reason).host.room)
  {
  }

  lemma JoinFixed(h: Host, u: Up)
    requires Shape(h) && u.body.Join?
    ensures HostJoin(h, u).host.id == h.id && Fixed(h.room, HostJoin(h, u).host.room)
  {
    hide SlotOf, JoinStatus, Rejoins;
  }

  lemma OpFixed(h: Host, slot: nat, u: Up)
    requires Shape(h) && slot < SEATS && u.body.Op?
    ensures HostOp(h, slot, u).host.id == h.id && Fixed(h.room, HostOp(h, slot, u).host.room)
  {
    hide SlotOf;
  }

  lemma StepFixed(h: Host, e: HostEvent)
    requires Shape(h)
    ensures HostStep(h, e).host.id == h.id && Fixed(h.room, HostStep(h, e).host.room)
  {
    hide HostReceive, States, Closes, Echoes, ValidRoom, LaunchReady, AllReady, AllAcked;
    if e.Receive? { ReceiveFixed(h, e.u, e.due); }
  }

  /** A changed roster gets a revision of its own exactly while the counter has room to grow. */
  lemma NewRevisionIff(h: Host, e: HostEvent)
    requires HostOk(h) && (e.Receive? ==> e.u.source != 0) && HostStep(h, e).host.room != h.room
    ensures HostStep(h, e).host.room.revision != h.room.revision <==> h.room.revision < U32_MAX
  {
    StepEvolves(h, e);
  }

  // ---- the end of the counter ---------------------------------------------

  /** The host's revision still names its roster: the counter has room, or nothing changed since it was full. */
  predicate Live(h: Host)
  {
    h.room.revision < U32_MAX || h.status >= 0
  }

  /** Nothing changed, or the roster got the next number. */
  ghost predicate Renumbers(r: Room, r': Room)
  {
    r' == r || (r.revision < U32_MAX && RoomEvolves(r, r'))
  }

  /** With the counter full, a host that is still running has not changed its roster. */
  ghost predicate Spent(h: Host, h': Host)
  {
    h'.status >= 0 ==>
      h.status >= 0 && h'.room == h.room && (h'.wantStart ==> h.wantStart || (h.room.starting == 0 && AllReady(h.room)))
  }

  lemma RemoveSpent(h: Host, slot: nat, reason: int)
    requires Shape(h) && slot < SEATS && h.room.revision == U32_MAX
    ensures Spent(h, RemoveMember(h, slot, reason).host)
  {
  }

  lemma JoinSpent(h: Host, u: Up)
    requires Shape(h) && u.body.Join? && h.room.revision == U32_MAX
    ensures Spent(h, HostJoin(h, u).host)
  {
    hide SlotOf, JoinStatus, Rejoins, AllReady;
  }

  lemma OpSpent(h: Host, slot: nat, u: Up)
    requires Shape(h) && slot < SEATS && u.body.Op? && h.room.revision == U32_MAX
    ensures Spent(h, HostOp(h, slot, u).host)
  {
    hide SlotOf, AllReady;
  }

  lemma ReceiveSpent(h: Host, u: Up, due: bool)
    requires Shape(h) && h.room.revision == U32_MAX
    ensures Spent(h, HostReceive(h, u, due).host)
  {
    hide SlotOf, RetiredFrom, HostOp, HostJoin, RemoveMember, AllReady, Echoes;
    if u.body.Join? { JoinSpent(h, u); }
    else if Owns(h, u) {
      var slot := SlotOf(h.room, u.id);
      if u.body.Op? { OpSpent(h, slot, u); }
      if u.body.Leave? { RemoveSpent(h, slot, CLOSED); }
    }
  }

  lemma StepSpent(h: Host, e: HostEvent)
    requires Shape(h) && h.room.revision == U32_MAX
    ensures Spent(h, HostStep(h, e).host)
  {
    hide HostReceive, States, Closes, Echoes, ValidRoom, LaunchReady, AllReady, AllAcked, SlotOf;
    if e.Receive? { ReceiveSpent(h, e.u, e.due); }
  }

  /** While the host is live it was live before, and every change of its roster took the next number. */
  lemma StepLive(h: Host, e: HostEvent)
    requires HostOk(h) && (e.Receive? ==> e.u.source != 0) && Live(HostStep(h, e).host)
    ensures Live(h) && Renumbers(h.room, HostStep(h, e).host.room)
  {
    hide HostStep, HostOk;
    StepEvolves(h, e);
    if h.room.revision == U32_MAX {
      assert Shape(h) by { OkShape(h); }
      StepSpent(h, e);
    }
  }

  lemma OkShape(h: Host)
    requires HostOk(h)
    ensures Shape(h)
  {
  }

  // ---- the links, by id ---------------------------------------------------

  /** The link that belongs to `id` among the first `n`, or NO_LINK. */
  function LinkIn(ls: seq<Link>, id: u32, n: nat): (l: Link)
    requires n <= |ls|
    ensures l == NO_LINK || (l.id == id && id != 0)
    ensures l == NO_LINK && id != 0 ==> forall i :: 0 <= i < n ==> ls[i].id != id
    ensures l != NO_LINK ==> exists i :: 0 <= i < n && ls[i] == l
  {
    if n == 0 || id == 0 then NO_LINK
    else if ls[n - 1].id == id then ls[n - 1]
    else LinkIn(ls, id, n - 1)
  }

  function LinkOf(h: Host, id: u32): Link
  {
    LinkIn(h.links, id, |h.links|)
  }

  ghost predicate Seated(h: Host, id: u32)
  {
    LinkOf(h, id).id != 0
  }

  /** No two links carry the same id. */
  ghost predicate Distinct(ls: seq<Link>)
  {
    forall i, j :: 0 <= i < j < |ls| && ls[i].id != 0 ==> ls[i].id != ls[j].id
  }

  lemma DistinctLinks(h: Host)
    requires HostOk(h)
    ensures Distinct(h.links)
  {
  }

  lemma LinkAt(ls: seq<Link>, i: nat)
    requires Distinct(ls) && i < |ls| && ls[i].id != 0
    ensures LinkIn(ls, ls[i].id, |ls|) == ls[i]
  {
  }

  lemma OwnerLink(h: Host, id: u32)
    requires HostOk(h) && id != 0 && SlotOf(h.room, id) >= 0 && SlotOf(h.room, id) != h.room.hostSlot
    ensures LinkOf(h, id) == h.links[SlotOf(h.room, id)] && Seated(h, id)
  {
    DistinctLinks(h);
    LinkAt(h.links, SlotOf(h.room, id));
  }

  lemma SeatedSlot(h: Host, id: u32)
    requires HostOk(h) && Seated(h, id)
    ensures 0 <= SlotOf(h.room, id) < SEATS && h.links[SlotOf(h.room, id)].id == id
  {
    var i :| 0 <= i < SEATS && h.links[i] == LinkOf(h, id);
    assert h.room.members[i].id == id;
  }

  /** Replacing a link affects only the ids of the old and the new one. */
  lemma LinkReplaced(ls: seq<Link>, slot: nat, l: Link, id: u32)
    requires Distinct(ls) && slot < |ls| && Distinct(ls[slot := l]) && (l.id == 0 ==> l == NO_LINK)
    ensures LinkIn(ls[slot := l], id, |ls|)
            == if id == 0 then NO_LINK else if id == l.id then l
               else if id == ls[slot].id then NO_LINK else LinkIn(ls, id, |ls|)
  {
    var ls' := ls[slot := l];
    if id != 0 {
      if id == l.id { LinkAt(ls', slot); }
      else if id != ls[slot].id {
        var m := LinkIn(ls, id, |ls|);
        if m != NO_LINK {
          var i :| 0 <= i < |ls| && ls[i] == m;
          assert ls'[i] == m;
          LinkAt(ls', i);
        }
      }
    }
  }

  lemma LinkMoved(ls: seq<Link>, from: nat, to: nat, id: u32)
    requires Distinct(ls) && from < |ls| && to < |ls| && from != to && ls[to] == NO_LINK
    ensures LinkIn(ls[to := ls[from]][from := NO_LINK], id, |ls|) == LinkIn(ls, id, |ls|)
  {
    var ls' := ls[to := ls[from]][from := NO_LINK];
    var m := LinkIn(ls, id, |ls|);
    if m != NO_LINK {
      var i :| 0 <= i < |ls| && ls[i] == m;
      LinkAt(ls', if i == from then to else i);
    }
  }

  /** The host records this request: it comes from a seat's owner and carries a new number. */
  ghost predicate Records(h: Host, u: Up)
    requires Shape(h)
  {
    u.body.Op? && Owns(h, u) && u.sequence > LinkOf(h, u.id).sequence
  }

  /** The host takes this chat request: it comes from a seat's owner and carries a new number. */
  ghost predicate Speaks(h: Host, u: Up)
    requires Shape(h)
  {
    u.body.ChatRequest? && u.body.text != [] && Owns(h, u) && u.sequence > LinkOf(h, u.id).chatSequence
  }

  /** The only ways the packet `u` changes its sender's link from `l` to `l'`. */
  ghost predicate LinkTurns(h: Host, u: Up, l: Link, l': Link)
    requires Shape(h)
  {
    || (u.body.Join? && l == NO_LINK && l' == Link(u.id, u.source, 0, 0, 0, 0))
    || (Records(h, u) && l' == l.(sequence := u.sequence))
    || (Speaks(h, u) && l' == l.(chatSequence := u.sequence))
    || ((u.body.Ack? || u.body.StartAck?) && u.revision == h.room.revision && l' == l.(roomAck := u.revision))
    || (u.body.StartAck? && u.revision == h.room.revision && h.room.starting != 0
        && l' == l.(roomAck := u.revision, startAck := u.revision))
  }

  /** The only ways one step changes the link of `id` from `l` to `l'`. */
  ghost predicate LinkStep(h: Host, e: HostEvent, id: u32, l: Link, l': Link)
    requires Shape(h)
  {
    l' == l || l' == NO_LINK || (e.Receive? && e.u.id == id && LinkTurns(h, e.u, l, l'))
  }

  lemma RemoveLinks(h: Host, slot: nat, reason: int, id: u32)
    requires HostOk(h) && slot < SEATS && slot != h.room.hostSlot && h.links[slot].id != 0
    ensures LinkOf(RemoveMember(h, slot, reason).host, id) == if id == h.links[slot].id then NO_LINK else LinkOf(h, id)
  {
    DistinctLinks(h);
    assert RemoveMember(h, slot, reason).host.links == h.links[slot := NO_LINK];
    LinkReplaced(h.links, slot, NO_LINK, id);
  }

  lemma MoveLinks(h: Host, from: int, to: int, id: u32)
    requires HostOk(h)
    ensures LinkOf(MoveMember(h, from, to).host, id) == LinkOf(h, id)
  {
    DistinctLinks(h);
    if MoveMember(h, from, to).host != h {
      assert MoveMember(h, from, to).host.links == h.links[to := h.links[from]][from := NO_LINK];
      LinkMoved(h.links, from, to, id);
    }
  }

  lemma JoinLinks(h: Host, u: Up, id: u32)
    requires HostOk(h) && u.source != 0 && u.body.Join?
    ensures LinkOf(HostJoin(h, u).host, id)
            == if HostJoin(h, u).host != h && id == u.id then Link(id, u.source, 0, 0, 0, 0) else LinkOf(h, id)
    ensures HostJoin(h, u).host != h ==> LinkOf(h, u.id) == NO_LINK
  {
    var h' := HostJoin(h, u).host;
    if h' != h {
      var slot := SlotOf(h.room, 0);
      JoinOk(h, u);
      DistinctLinks(h);
      DistinctLinks(h');
      assert h'.links == h.links[slot := Link(u.id, u.source, 0, 0, 0, 0)];
      LinkReplaced(h.links, slot, Link(u.id, u.source, 0, 0, 0, 0), id);
      assert forall i :: 0 <= i < SEATS ==> h.links[i].id != u.id;
    }
  }

  /** Updating the counters of one link changes that link alone. */
  lemma UpdateLinks(h: Host, slot: nat, l: Link, id: u32)
    requires HostOk(h) && slot < SEATS && h.links[slot].id != 0
    requires l.id == h.links[slot].id && l.addr == h.links[slot].addr
    ensures LinkOf(h.(links := h.links[slot := l]), id) == if id == l.id then l else LinkOf(h, id)
  {
    LinkUpdateOk(h, slot, l);
    DistinctLinks(h);
    DistinctLinks(h.(links := h.links[slot := l]));
    LinkReplaced(h.links, slot, l, id);
  }

  /** Applying a request changes no link except by moving it. */
  lemma ApplyOpLinks(h: Host, slot: nat, u: Up, id: u32)
    requires HostOk(h) && slot < SEATS && u.body.Op?
    ensures LinkOf(ApplyOp(h, slot, u), id) == LinkOf(h, id)
  {
    if ApplyOp(h, slot, u).links != h.links { MoveLinks(h, slot, u.body.c, id); }
  }

  lemma OpLinks(h: Host, slot: nat, u: Up, id: u32)
    requires HostOk(h) && slot < SEATS && h.links[slot].id == u.id != 0 && u.body.Op?
    requires u.sequence > h.links[slot].sequence
    ensures LinkOf(HostOp(h, slot, u).host, id)
            == if id == u.id then h.links[slot].(sequence := u.sequence) else LinkOf(h, id)
  {
    var l := h.links[slot].(sequence := u.sequence);
    var h1 := h.(links := h.links[slot := l]);
    LinkUpdateOk(h, slot, l);
    UpdateLinks(h, slot, l, id);
    ApplyOpLinks(h1, slot, u, id);
    assert HostOp(h, slot, u).host == ApplyOp(h1, slot, u);
  }

  lemma AckLinks(h: Host, slot: nat, revision: u32, start: bool, id: u32)
    requires HostOk(h) && slot < SEATS && h.links[slot].id != 0
    ensures var l := h.links[slot];
            LinkOf(HostAck(h, slot, revision, start), id)
            == if id != l.id || revision != h.room.revision then LinkOf(h, id)
               else if start && h.room.starting != 0 then l.(roomAck := revision, startAck := revision)
               else l.(roomAck := revision)
  {
    DistinctLinks(h);
    LinkAt(h.links, slot);
    UpdateLinks(h, slot, h.links[slot].(roomAck := revision), id);
    UpdateLinks(h, slot, h.links[slot].(roomAck := revision, startAck := revision), id);
  }

  lemma ChatLinks(h: Host, slot: nat, u: Up, id: u32)
    requires HostOk(h) && slot < SEATS && h.links[slot].id != 0 && u.body.ChatRequest?
    ensures LinkOf(HostChat(h, slot, u).host, id)
            == if id == h.links[slot].id && u.body.text != [] && u.sequence > h.links[slot].chatSequence
               then h.links[slot].(chatSequence := u.sequence) else LinkOf(h, id)
  {
    UpdateLinks(h, slot, h.links[slot].(chatSequence := u.sequence), id);
  }

  lemma OwnedLinks(h: Host, u: Up, due: bool, id: u32)
    requires HostOk(h) && u.source != 0 && !u.body.Join? && Owns(h, u)
    ensures LinkStep(h, Receive(u, due), id, LinkOf(h, id), LinkOf(HostReceive(h, u, due).host, id))
  {
    var slot := SlotOf(h.room, u.id);
    assert h.links[slot].id != 0;
    OwnerLink(h, u.id);
    match u.body
    case Leave => RemoveLinks(h, slot, CLOSED, id);
    case Op(_, _, _) => if u.sequence > h.links[slot].sequence { OpLinks(h, slot, u, id); }
    case ChatRequest(_) => ChatLinks(h, slot, u, id);
    case Ack => AckLinks(h, slot, u.revision, false, id);
    case StartAck => AckLinks(h, slot, u.revision, true, id);
  }

  lemma ReceiveLinks(h: Host, u: Up, due: bool, id: u32)
    requires HostOk(h) && u.source != 0
    ensures LinkStep(h, Receive(u, due), id, LinkOf(h, id), LinkOf(HostReceive(h, u, due).host, id))
  {
    if u.body.Join? { JoinLinks(h, u, id); }
    else if Owns(h, u) { OwnedLinks(h, u, due, id); }
  }

  lemma DepartLinks(h: Host, slot: int, id: u32)
    requires HostOk(h)
    ensures LinkOf(HostExpire(h, slot).host, id) in {LinkOf(h, id), NO_LINK}
    ensures LinkOf(HostKick(h, slot).host, id) in {LinkOf(h, id), NO_LINK}
  {
    hide RemoveMember, LinkIn;
    if HostExpire(h, slot) != HostOut(h, []) { RemoveLinks(h, slot, TIMEOUT, id); }
    if HostKick(h, slot) != HostOut(h, []) { RemoveLinks(h, slot, KICKED, id); }
  }

  /** What the host does by itself, but for departures and moves, leaves the links alone. */
  lemma OwnLinks(h: Host, e: HostEvent)
    requires Shape(h) && !e.Receive? && !e.Expire? && !e.Kick? && !e.Move?
    ensures HostStep(h, e).host.links == h.links
  {
    hide AllReady, AllAcked, LaunchReady, ValidRoom, States, Closes, Echoes, Occupied, SlotOf;
  }

  lemma StepLinks(h: Host, e: HostEvent, id: u32)
    requires HostOk(h) && (e.Receive? ==> e.u.source != 0)
    ensures LinkStep(h, e, id, LinkOf(h, id), LinkOf(HostStep(h, e).host, id))
  {
    hide HostReceive, MoveMember, HostExpire, HostKick, LinkTurns, LinkIn, HostBegin, HostSay, HostSetCaps,
         HostSetReady;
    match e
    case Receive(u, due) => ReceiveLinks(h, u, due, id);
    case Expire(slot) => DepartLinks(h, slot, id);
    case Kick(slot) => DepartLinks(h, slot, id);
    case Move(from, to) => MoveLinks(h, from, to, id);
    case _ => OwnLinks(h, e);
  }

  // ---- the ready mask and the start state ---------------------------------

  /** The packet is the owner's READY(1) for the current configuration, recorded for seat `i`. */
  ghost predicate Votes(h: Host, e: HostEvent, i: nat)
    requires Shape(h)
  {
    && e.Receive? && Records(h, e.u) && e.u.body.op == OP_READY && e.u.body.a == 1
    && e.u.body.c == h.room.configuration && i < SEATS && h.room.members[i].id == e.u.id
  }

  lemma ApplyOpReady(h: Host, slot: nat, u: Up, i: nat)
    requires Shape(h) && slot < SEATS && u.body.Op? && i in ApplyOp(h, slot, u).room.ready
    ensures i in h.room.ready
            || (i == slot && u.body.op == OP_READY && u.body.a == 1 && u.body.c == h.room.configuration)
  {
    hide Occupied;
  }

  lemma OpReady(h: Host, u: Up, due: bool, i: nat)
    requires HostOk(h) && u.source != 0 && u.body.Op? && Owns(h, u)
    requires i in HostReceive(h, u, due).host.room.ready
    ensures i in h.room.ready || Votes(h, Receive(u, due), i)
  {
    var slot := SlotOf(h.room, u.id);
    assert h.links[slot].id != 0;
    OwnerLink(h, u.id);
    hide ApplyOp, HostOk, SlotOf, RetiredFrom, LinkIn;
    if u.sequence > h.links[slot].sequence {
      ApplyOpReady(h.(links := h.links[slot := h.links[slot].(sequence := u.sequence)]), slot, u, i);
    }
  }

  lemma OtherReady(h: Host, u: Up, due: bool, i: nat)
    requires Shape(h) && !(u.body.Op? && Owns(h, u)) && i in HostReceive(h, u, due).host.room.ready
    ensures i in h.room.ready
  {
    hide SlotOf, RetiredFrom, Occupied, JoinStatus, Rejoins, Echoes, HostOp;
  }

  /** A ready bit appears only for the host's own seat or by its owner's recorded vote. */
  lemma StepReady(h: Host, e: HostEvent, i: nat)
    requires HostOk(h) && (e.Receive? ==> e.u.source != 0)
    requires i in HostStep(h, e).host.room.ready
    ensures i in h.room.ready || i == h.room.hostSlot || Votes(h, e, i)
  {
    assert Shape(h);
    hide HostReceive, HostOk, Votes, AllReady, AllAcked, LaunchReady, ValidRoom, States, Closes, Echoes, Occupied;
    match e
    case Receive(u, due) => if u.body.Op? && Owns(h, u) { OpReady(h, u, due, i); } else { OtherReady(h, u, due, i); }
    case _ =>
  }

  /** Ready bits outlive a step only while seats and configuration stay as they are. */
  ghost predicate SameSeats(r: Room, r': Room)
  {
    r'.ready == {} || (r'.members == r.members && r'.configuration == r.configuration && r'.hostSlot == r.hostSlot)
  }

  lemma OpSeats(h: Host, slot: nat, u: Up)
    requires Shape(h) && slot < SEATS && u.body.Op?
    ensures SameSeats(h.room, HostOp(h, slot, u).host.room)
  {
    hide SlotOf;
  }

  lemma ReceiveSeats(h: Host, u: Up, due: bool)
    requires Shape(h)
    ensures SameSeats(h.room, HostReceive(h, u, due).host.room)
  {
    hide SlotOf, RetiredFrom, JoinStatus, Rejoins, Echoes, HostOp;
    if u.body.Op? && Owns(h, u) { OpSeats(h, SlotOf(h.room, u.id), u); }
  }

  lemma StepSeats(h: Host, e: HostEvent)
    requires Shape(h)
    ensures SameSeats(h.room, HostStep(h, e).host.room)
  {
    hide HostReceive, States, Closes, Echoes, ValidRoom, LaunchReady, AllReady, AllAcked, SlotOf;
    if e.Receive? { ReceiveSeats(h, e.u, e.due); }
  }

  /** The packet is the READY(a) of `id` for the current configuration, and the host acts on it. */
  ghost predicate Counts(h: Host, u: Up, id: u32, a: u32)
    requires Shape(h)
  {
    && Records(h, u) && h.room.starting == 0 && u.id == id && u.body.op == OP_READY && u.body.a == a
    && u.body.c == h.room.configuration
  }

  /** A READY(0) the host acts on clears the bit of its sender. */
  lemma WithdrawalClears(h: Host, u: Up, due: bool, i: nat)
    requires HostOk(h) && i < SEATS && i != h.room.hostSlot && u.source != 0 && Counts(h, u, h.room.members[i].id, 0)
    ensures i !in HostReceive(h, u, due).host.room.ready
  {
    var slot := SlotOf(h.room, u.id);
    OwnerLink(h, u.id);
    assert slot == i;
    hide HostOk, SlotOf, RetiredFrom, LinkIn;
  }

  /** A ready bit was kept, with its seat and configuration and without a withdrawal, or just voted for. */
  lemma StepTally(h: Host, e: HostEvent, i: nat)
    requires HostOk(h) && (e.Receive? ==> e.u.source != 0) && i < SEATS
    requires i in HostStep(h, e).host.room.ready && i != HostStep(h, e).host.room.hostSlot
    ensures SameSeats(h.room, HostStep(h, e).host.room)
    ensures (e.Receive? && Counts(h, e.u, h.room.members[i].id, 1))
            || (i in h.room.ready && !(e.Receive? && Counts(h, e.u, h.room.members[i].id, 0)))
  {
    StepSeats(h, e);
    StepReady(h, e, i);
    if e.Receive? && Counts(h, e.u, h.room.members[i].id, 0) { WithdrawalClears(h, e.u, e.due, i); }
    if i !in h.room.ready { VoteCounts(h, e, i); }
  }

  lemma VoteCounts(h: Host, e: HostEvent, i: nat)
    requires HostOk(h) && Votes(h, e, i) && i in HostStep(h, e).host.room.ready && i !in h.room.ready
    ensures Counts(h, e.u, h.room.members[i].id, 1)
  {
    hide SlotOf, RetiredFrom, LinkIn, Echoes;
  }

  /** A start is pending, or under way, only for a roster that is ready to a man. */
  ghost predicate StartOk(h: Host)
  {
    && (h.wantStart ==> h.room.starting == 0 && AllReady(h.room))
    && (h.room.starting != 0 ==> AllReady(h.room) && h.room.session != 0)
  }

  lemma BeginStart(h: Host, session: u32)
    requires HostOk(h) && h.room.revision < U32_MAX && StartOk(h)
    ensures StartOk(HostBegin(h, session))
  {
    assert Occupied(HostBegin(h, session).room) == Occupied(h.room);
  }

  /** How a packet treats the start state: a frozen roster yields only to a departure, nothing but the
      pump freezes one, and any change of the roster withdraws a wanted start. */
  ghost predicate Frozen(h: Host, h': Host, leaves: bool)
  {
    && (h.room.starting != 0 ==> h'.room == h.room || (leaves && h'.room.starting == 0))
    && (h.room.starting == 0 ==> h'.room.starting == 0)
    && (h'.wantStart ==> h.wantStart && (h.room.revision < U32_MAX ==> h'.room == h.room))
  }

  lemma OpFrozen(h: Host, slot: nat, u: Up)
    requires Shape(h) && slot < SEATS && u.body.Op?
    ensures Frozen(h, HostOp(h, slot, u).host, false)
  {
  }

  lemma JoinFrozen(h: Host, u: Up)
    requires Shape(h) && u.body.Join?
    ensures Frozen(h, HostJoin(h, u).host, false)
  {
  }

  lemma ReceiveFrozen(h: Host, u: Up, due: bool)
    requires Shape(h)
    ensures Frozen(h, HostReceive(h, u, due).host, u.body.Leave? && Owns(h, u))
  {
    if u.body.Join? { JoinFrozen(h, u); }
    else if u.body.Op? && Owns(h, u) { OpFrozen(h, SlotOf(h.room, u.id), u); }
  }

  lemma StepStart(h: Host, e: HostEvent)
    requires HostOk(h) && (e.Receive? ==> e.u.source != 0) && Live(HostStep(h, e).host) && StartOk(h)
    ensures StartOk(HostStep(h, e).host)
  {
    if h.room.revision < U32_MAX {
      NumberedStart(h, e);
    } else {
      StepEvolves(h, e);
      StepSpent(h, e);
      hide HostStep, AllReady;
    }
  }

  lemma NumberedStart(h: Host, e: HostEvent)
    requires HostOk(h) && (e.Receive? ==> e.u.source != 0) && h.room.revision < U32_MAX && StartOk(h)
    ensures StartOk(HostStep(h, e).host)
  {
    hide HostReceive, HostBegin, AllAcked, LaunchReady, States, Closes, Echoes;
    match e
    case Receive(u, due) => ReceiveFrozen(h, u, due);
    case Begin(session) => BeginStart(h, session);
    case _ =>
  }

  // ---- the packets one step sends -----------------------------------------

  /** State packets carry the roster as the step left it and the number recorded for their addressee;
      echoes carry the line the step appended. */
  ghost predicate SentOk(h: Host, h': Host, d: Down)
  {
    && d.epoch == h'.room.epoch
    && (IsState(d) ==> d.revision == h'.room.revision && d.body.room == h'.room
                       && (d.body.Launch? <==> h'.room.starting != 0)
                       && d.sequence == LinkOf(h', d.id).sequence)
    && (d.body.ChatEcho? ==> h'.chatSequence == h.chatSequence + 1 && d.sequence == h'.chatSequence
                             && h'.chat != [] && d.body.line == h'.chat[|h'.chat| - 1])
  }

  lemma StateSent(h: Host, h': Host, slot: nat)
    requires HostOk(h') && slot < SEATS && h'.links[slot].id != 0
    ensures SentOk(h, h', SendState(h', slot))
  {
    DistinctLinks(h');
    LinkAt(h'.links, slot);
  }

  lemma {:induction false} StatesSent(h: Host, n: nat, d: Down)
    requires HostOk(h) && n <= SEATS && d in States(h, n)
    ensures SentOk(h, h, d)
  {
    if d !in States(h, n - 1) { StateSent(h, h, n - 1); } else { StatesSent(h, n - 1, d); }
  }

  lemma {:induction false} ClosesSent(h: Host, n: nat, d: Down)
    requires Shape(h) && n <= SEATS && d in Closes(h, n)
    ensures SentOk(h, h, d)
  {
    if d in Closes(h, n - 1) { ClosesSent(h, n - 1, d); }
  }

  lemma {:induction false} EchoesSent(h: Host, h': Host, line: ChatLine, n: nat, d: Down)
    requires Shape(h') && n <= SEATS && d in Echoes(h', line, n)
    requires h'.chatSequence == h.chatSequence + 1 && h'.chat != [] && h'.chat[|h'.chat| - 1] == line
    ensures SentOk(h, h', d)
  {
    if d in Echoes(h', line, n - 1) { EchoesSent(h, h', line, n - 1, d); }
  }

  lemma BroadcastSent(h: Host, sender: nat, text: Text, d: Down)
    requires Shape(h) && sender < SEATS && d in Broadcast(h, sender, text).sent
    ensures SentOk(h, Broadcast(h, sender, text).host, d)
  {
    var line := ChatLine(h.room.members[sender].id, h.room.members[sender].name, text);
    EchoesSent(h, Broadcast(h, sender, text).host, line, h.room.maxSlots, d);
  }

  lemma JoinSent(h: Host, u: Up, d: Down)
    requires HostOk(h) && u.source != 0 && u.body.Join? && d in HostJoin(h, u).sent
    ensures SentOk(h, HostJoin(h, u).host, d)
  {
    JoinOk(h, u);
    var h' := HostJoin(h, u).host;
    if h' != h { StateSent(h, h', SlotOf(h.room, 0)); }
    else if Rejoins(h, u) { StateSent(h, h, SlotOf(h.room, u.id)); }
  }

  lemma OpSent(h: Host, slot: nat, u: Up, d: Down)
    requires HostOk(h) && slot < h.room.maxSlots && h.links[slot].id == u.id != 0 && u.body.Op?
    requires d in HostOp(h, slot, u).sent
    ensures SentOk(h, HostOp(h, slot, u).host, d)
  {
    if u.sequence <= h.links[slot].sequence { StateSent(h, h, slot); }
    else {
      OpOk(h, slot, u);
      var h' := HostOp(h, slot, u).host;
      OpLinks(h, slot, u, u.id);
      SeatedSlot(h', u.id);
      StateSent(h, h', SlotOf(h'.room, u.id));
      assert d == SendState(h', SlotOf(h'.room, u.id));
    }
  }

  lemma ReceiveSent(h: Host, u: Up, due: bool, d: Down)
    requires HostOk(h) && u.source != 0 && d in HostReceive(h, u, due).sent
    ensures SentOk(h, HostReceive(h, u, due).host, d)
  {
    if u.body.Join? { JoinSent(h, u, d); }
    else if Owns(h, u) {
      var slot := SlotOf(h.room, u.id);
      assert h.links[slot].id == u.id != 0;
      if u.body.Op? { OpSent(h, slot, u, d); }
      if u.body.ChatRequest? && HostChat(h, slot, u).sent != [] {
        BroadcastSent(h.(links := h.links[slot := h.links[slot].(chatSequence := u.sequence)]), slot, u.body.text, d);
      }
    }
  }

  lemma StepSent(h: Host, e: HostEvent, d: Down)
    requires HostOk(h) && (e.Receive? ==> e.u.source != 0) && d in HostStep(h, e).sent
    ensures SentOk(h, HostStep(h, e).host, d)
  {
    match e
    case Receive(u, due) => ReceiveSent(h, u, due, d);
    case Resend => StatesSent(h, h.room.maxSlots, d);
    case Shutdown => ClosesSent(h, h.room.maxSlots, d);
    case Say(text) => BroadcastSent(h, SlotOf(h.room, h.id), text, d);
    case _ =>
  }

  // ---- the chat log -------------------------------------------------------

  /** A step numbers at most one line, and then that line is the newest in the host's queue. */
  ghost predicate ChatStep(h: Host, h': Host)
  {
    h'.chatSequence == h.chatSequence || (h'.chatSequence == h.chatSequence + 1 && h'.chat != [])
  }

  lemma OpChat(h: Host, slot: nat, u: Up)
    requires Shape(h) && slot < SEATS && u.body.Op?
    ensures HostOp(h, slot, u).host.chatSequence == h.chatSequence
  {
  }

  lemma ReceiveChat(h: Host, u: Up, due: bool)
    requires Shape(h)
    ensures ChatStep(h, HostReceive(h, u, due).host)
  {
    if u.body.Op? && Owns(h, u) { OpChat(h, SlotOf(h.room, u.id), u); }
  }

  lemma StepChat(h: Host, e: HostEvent)
    requires Shape(h)
    ensures ChatStep(h, HostStep(h, e).host)
  {
    if e.Receive? { ReceiveChat(h, e.u, e.due); }
  }

  // ---- all of it ----------------------------------------------------------

  /** Everything the protocol needs to know about one host step. */
  ghost predicate HostFacts(h: Host, e: HostEvent, o: HostOut)
  {
    && HostOk(h) && HostOk(o.host) && o.host.id == h.id
    && (Live(o.host) ==> Live(h) && Renumbers(h.room, o.host.room))
    && (Live(o.host) && StartOk(h) ==> StartOk(o.host))
    && ChatStep(h, o.host)
    && (forall id :: LinkStep(h, e, id, LinkOf(h, id), LinkOf(o.host, id)))
    && (forall i :: i in o.host.room.ready ==> i in h.room.ready || i == h.room.hostSlot || Votes(h, e, i))
    && (forall d :: d in o.sent ==> SentOk(h, o.host, d))
  }

  lemma StepFacts(h: Host, e: HostEvent)
    requires HostOk(h) && (e.Receive? ==> e.u.source != 0)
    ensures HostFacts(h, e, HostStep(h, e))
  {
    var o := HostStep(h, e);
    StepOk(h, e);
    StepFixed(h, e);
    StepChat(h, e);
    if Live(o.host) { StepLive(h, e); }
    if Live(o.host) && StartOk(h) { StepStart(h, e); }
    forall id ensures LinkStep(h, e, id, LinkOf(h, id), LinkOf(o.host, id)) { StepLinks(h, e, id); }
    forall i | i in o.host.room.ready ensures i in h.room.ready || i == h.room.hostSlot || Votes(h, e, i) {
      StepReady(h, e, i);
    }
    forall d | d in o.sent ensures SentOk(h, o.host, d) { StepSent(h, e, d); }
  }
}
