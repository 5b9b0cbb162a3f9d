/** The waiting room as a transition system: one host, its guests, and every packet ever sent.
    A sent packet may be delivered at any time, any number of times, or never. */
module LanRoomProtocol {
  import opened Common
  import opened LanRoom
  import opened LanRoomHost
  import opened LanRoomEvolution
  import opened LanRoomGuest

  /** A READY(1) request and the roster its guest was looking at when it asked. */
  datatype Ballot = Ballot(id: u32, view: Room)

  /** A chat line a guest accepted and the host's number for it. */
  datatype Heard = Heard(number: u32, line: ChatLine)

  /** The peers, the network, and a record of the past: the roster of each revision, the ballots,
      the recorded requests, the host's chat log, and what each guest heard. */
  datatype System = System(host: Host, guests: map<u32, Guest>, up: set<Up>, down: set<Down>,
                           history: map<u32, Room>, ballots: set<Ballot>, recorded: set<(u32, u32)>,
                           log: seq<ChatLine>, heard: map<u32, seq<Heard>>)

  datatype Event =
    | AtHost(he: HostEvent)
    | AtGuest(id: u32, ge: GuestEvent)
    | Opens(id: u32, addr: Address, game: Text, version: Text, password: Text, name: Text, supported: int32)

  function Initial(h: Host): System
  {
    System(h, map[], {}, {}, map[h.room.revision := h.room], {}, {}, [], map[])
  }

  /** The system after the host took `e` with outcome `o`. */
  ghost function AfterHost(s: System, e: HostEvent, o: HostOut): System
    requires Shape(s.host)
  {
    s.(host := o.host,
       down := s.down + (set d | d in o.sent),
       history := s.history[o.host.room.revision := o.host.room],
       recorded := if e.Receive? && Records(s.host, e.u) then s.recorded + {(e.u.id, e.u.sequence)} else s.recorded,
       log := if o.host.chatSequence != s.host.chatSequence && o.host.chat != []
              then s.log + [o.host.chat[|o.host.chat| - 1]] else s.log)
  }

  /** The system after the guest `id` took `e` with outcome `o`. */
  ghost function AfterGuest(s: System, id: u32, e: GuestEvent, o: GuestOut): System
    requires id in s.guests && id in s.heard
  {
    var g := s.guests[id];
    s.(guests := s.guests[id := o.guest],
       up := s.up + (set u | u in o.sent),
       ballots := if e == Vote(true) && o.guest != g then s.ballots + {Ballot(id, g.room)} else s.ballots,
       heard := if e.Hear? && e.d.body.ChatEcho? && o.guest.chatSeen != g.chatSeen
                then s.heard[id := s.heard[id] + [Heard(e.d.sequence, e.d.body.line)]] else s.heard)
  }

  ghost function AfterOpen(s: System, id: u32, g: Guest): System
  {
    s.(guests := s.guests[id := g], heard := s.heard[id := []])
  }

  ghost predicate Enabled(s: System, e: Event)
  {
    match e
    case AtHost(he) => he.Receive? ==> he.u in s.up
    case AtGuest(id, ge) =>
      && id in s.guests && id in s.heard && s.guests[id].open
      && (ge.Hear? ==> ge.d in s.down && ge.d.dest == s.guests[id].addr)
    case Opens(id, addr, game, version, password, name, supported) =>
      && id !in s.guests && id != s.host.id && addr != 0
      && GuestOpen(id, addr, game, version, password, name, supported).Some?
  }

  /** One event; an event that is not enabled leaves the system as it is. */
  ghost function Turn(s: System, e: Event): (s': System)
    requires Shape(s.host)
    ensures Shape(s'.host)
  {
    if !Enabled(s, e) then s
    else match e
      case AtHost(he) => AfterHost(s, he, HostStep(s.host, he))
      case AtGuest(id, ge) => AfterGuest(s, id, ge, GuestStep(s.guests[id], ge))
      case Opens(id, addr, game, version, password, name, supported) =>
        AfterOpen(s, id, GuestOpen(id, addr, game, version, password, name, supported).value)
  }

  /** The state after a whole run. */
  ghost function Execute(h: Host, es: seq<Event>): (s: System)
    requires Shape(h)
    ensures Shape(s.host)
  {
    if es == [] then Initial(h) else Turn(Execute(h, es[..|es| - 1]), es[|es| - 1])
  }

  /** A host as rnet_lan_room_host_open leaves it. */
  ghost predicate Opened(h: Host)
  {
    exists id, config, password :: HostOpen(id, config, password) == Some(h)
  }

  // ---- the invariant ------------------------------------------------------

  ghost predicate InHistory(s: System, r: Room)
  {
    r.revision in s.history && s.history[r.revision] == r
  }

  /** Configuration numbers never decrease, and one number names one core. */
  ghost predicate ConfigOrder(r: Room, r': Room)
  {
    r.configuration <= r'.configuration && (r.configuration == r'.configuration ==> Core(r) == Core(r'))
  }

  ghost predicate HistoryOk(s: System)
  {
    && InHistory(s, s.host.room)
    && (forall n :: n in s.history ==> n <= s.host.room.revision && s.history[n].revision == n
                                       && s.history[n].epoch == s.host.id && s.history[n].configuration <= n)
    && (forall m, n :: m in s.history && n in s.history && m <= n ==> ConfigOrder(s.history[m], s.history[n]))
  }

  ghost predicate HasBallot(s: System, id: u32, configuration: u32)
  {
    exists b :: b in s.ballots && b.id == id && b.view.configuration == configuration
  }

  ghost predicate DownOk(s: System, d: Down)
  {
    && (IsState(d) ==> d.epoch == s.host.id && d.body.room.revision == d.revision && InHistory(s, d.body.room)
                       && (d.body.Launch? <==> d.body.room.starting != 0)
                       && (d.sequence != 0 ==> (d.id, d.sequence) in s.recorded))
    && (d.body.ChatEcho? ==> 1 <= d.sequence <= |s.log| && s.log[d.sequence - 1] == d.body.line)
  }

  /** The guest joined and has held the roster of this revision or a later one. */
  ghost predicate Reached(s: System, id: u32, revision: u32)
  {
    id in s.guests && s.guests[id].joined && revision <= s.guests[id].room.revision
  }

  ghost predicate UpOk(s: System, u: Up)
  {
    && u.id in s.guests
    && (u.body.Ack? || u.body.StartAck? ==> Reached(s, u.id, u.revision))
    && (u.body.Op? ==> u.sequence <= s.guests[u.id].sequence)
    && (u.body.Op? && u.body.op == OP_READY && u.body.a == 1 ==> HasBallot(s, u.id, u.body.c))
  }

  ghost predicate PendingOk(s: System, g: Guest)
  {
    g.pending.Some? ==>
      g.sequence > 0 && (g.pending.value.op == OP_READY && g.pending.value.a == 1
                         ==> HasBallot(s, g.id, g.pending.value.b))
  }

  /** Heard lines carry increasing numbers, up to the last one seen, and the host's text. */
  ghost predicate NumbersOk(log: seq<ChatLine>, seen: u32, heard: seq<Heard>)
  {
    && (forall i :: 0 <= i < |heard| ==> 1 <= heard[i].number <= seen && heard[i].number <= |log|
                                         && log[heard[i].number - 1] == heard[i].line)
    && (forall i, j :: 0 <= i < j < |heard| ==> heard[i].number < heard[j].number)
  }

  /** The queue holds the newest lines heard. */
  ghost predicate Tail(chat: seq<ChatLine>, heard: seq<Heard>)
  {
    && |chat| <= |heard|
    && (forall i :: 0 <= i < |chat| ==> chat[i] == heard[|heard| - |chat| + i].line)
  }

  ghost predicate HeardOk(s: System, g: Guest, heard: seq<Heard>)
  {
    NumbersOk(s.log, g.chatSeen, heard) && Tail(g.chat, heard)
  }

  ghost predicate GuestOk(s: System, id: u32)
    requires id in s.guests
  {
    var g := s.guests[id];
    && (g.joined ==> InHistory(s, g.room))
    && PendingOk(s, g)
    && id in s.heard && HeardOk(s, g, s.heard[id])
  }

  ghost predicate LinkOk(s: System, id: u32)
  {
    var l := LinkOf(s.host, id);
    && (l != NO_LINK ==> id in s.guests)
    && (l.roomAck != 0 ==> Reached(s, id, l.roomAck))
    && (l.startAck != 0 ==> Reached(s, id, l.startAck))
    && (l.sequence != 0 ==> (id, l.sequence) in s.recorded)
  }

  ghost predicate ReadyOk(s: System)
    requires Shape(s.host)
  {
    forall i :: i in s.host.room.ready && i != s.host.room.hostSlot && i < SEATS
                ==> HasBallot(s, s.host.room.members[i].id, s.host.room.configuration)
  }

  /** Peers are who they say they are: the part that holds in every run. */
  ghost predicate Base(s: System)
  {
    && HostOk(s.host)
    && (forall id :: id in s.guests ==> id != 0 && id != s.host.id && s.guests[id].id == id && s.guests[id].addr != 0)
    && (forall u :: u in s.up ==> u.id in s.guests && u.source == s.guests[u.id].addr)
  }

  ghost predicate DownsOk(s: System) { forall d :: d in s.down ==> DownOk(s, d) }

  ghost predicate UpsOk(s: System) { forall u :: u in s.up ==> UpOk(s, u) }

  ghost predicate GuestsOk(s: System) { forall id :: id in s.guests ==> GuestOk(s, id) }

  ghost predicate AllLinksOk(s: System) { forall id :: LinkOk(s, id) }

  ghost predicate RecordsOk(s: System)
  {
    && (forall b :: b in s.ballots ==> b.id in s.guests && InHistory(s, b.view))
    && (forall p :: p in s.recorded ==> p.0 in s.guests && p.1 <= s.guests[p.0].sequence)
  }

  ghost predicate Protocol(s: System)
    requires Shape(s.host)
  {
    && HistoryOk(s) && StartOk(s.host) && ReadyOk(s) && |s.log| == s.host.chatSequence
    && DownsOk(s) && UpsOk(s) && GuestsOk(s) && AllLinksOk(s) && RecordsOk(s)
  }

  /** The invariant of every run; the protocol part lasts while revisions name rosters. */
  ghost predicate Inv(s: System)
  {
    Base(s) && (Live(s.host) ==> Protocol(s))
  }

  lemma InitialInv(h: Host)
    requires Opened(h)
    ensures Inv(Initial(h))
  {
    var id, config, password :| HostOpen(id, config, password) == Some(h);
    OpenOk(id, config, password);
    forall id: u32 ensures LinkOk(Initial(h), id) {}
  }

  // ---- what only grows ----------------------------------------------------

  ghost predicate Grows(s: System, s': System)
  {
    && s'.host.id == s.host.id && s.host.room.revision <= s'.host.room.revision
    && (forall n :: n in s.history ==> n in s'.history && s'.history[n] == s.history[n])
    && s.up <= s'.up && s.down <= s'.down && s.ballots <= s'.ballots && s.recorded <= s'.recorded
    && |s.log| <= |s'.log| && (forall i :: 0 <= i < |s.log| ==> s'.log[i] == s.log[i])
    && (forall id :: id in s.guests ==> id in s'.guests && GuestGrows(s.guests[id], s'.guests[id]))
  }

  lemma BallotStays(s: System, s': System, id: u32, configuration: u32)
    requires Grows(s, s') && HasBallot(s, id, configuration)
    ensures HasBallot(s', id, configuration)
  {
    var b :| b in s.ballots && b.id == id && b.view.configuration == configuration;
    assert b in s'.ballots;
  }

  lemma DownStays(s: System, s': System, d: Down)
    requires Grows(s, s') && DownOk(s, d)
    ensures DownOk(s', d)
  {
  }

  lemma UpStays(s: System, s': System, u: Up)
    requires Grows(s, s') && UpOk(s, u)
    ensures UpOk(s', u)
  {
    if HasBallot(s, u.id, if u.body.Op? then u.body.c else 0) {
      BallotStays(s, s', u.id, if u.body.Op? then u.body.c else 0);
    }
  }

  lemma PendingStays(s: System, s': System, g: Guest)
    requires Grows(s, s') && PendingOk(s, g)
    ensures PendingOk(s', g)
  {
    if g.pending.Some? && HasBallot(s, g.id, g.pending.value.b) { BallotStays(s, s', g.id, g.pending.value.b); }
  }

  // ---- a host step --------------------------------------------------------

  lemma HistoryStep(s: System, e: HostEvent, o: HostOut)
    requires Shape(s.host) && HistoryOk(s) && Renumbers(s.host.room, o.host.room)
    requires o.host.id == s.host.id == o.host.room.epoch && o.host.room.configuration <= o.host.room.revision
    ensures HistoryOk(AfterHost(s, e, o))
  {
    var s' := AfterHost(s, e, o);
    forall m, n | m in s'.history && n in s'.history && m <= n
      ensures ConfigOrder(s'.history[m], s'.history[n])
    {
      if n == o.host.room.revision && m in s.history { assert ConfigOrder(s.history[m], s.host.room); }
    }
  }

  lemma HostGrows(s: System, e: HostEvent, o: HostOut)
    requires Shape(s.host) && HistoryOk(s) && Renumbers(s.host.room, o.host.room)
    requires o.host.id == s.host.id
    ensures Grows(s, AfterHost(s, e, o))
  {
  }

  /** The packets of the step, and all earlier ones, fit the new state. */
  lemma DownStep(s: System, e: HostEvent, o: HostOut, d: Down)
    requires Shape(s.host) && Grows(s, AfterHost(s, e, o)) && HistoryOk(AfterHost(s, e, o))
    requires |s.log| == s.host.chatSequence && ChatStep(s.host, o.host)
    requires forall id :: LinkOk(AfterHost(s, e, o), id)
    requires DownOk(s, d) || SentOk(s.host, o.host, d)
    ensures DownOk(AfterHost(s, e, o), d)
  {
    var s' := AfterHost(s, e, o);
    if DownOk(s, d) { DownStays(s, s', d); }
    else if IsState(d) { assert LinkOk(s', d.id); }
  }

  lemma LinkOkStep(s: System, e: HostEvent, o: HostOut, id: u32)
    requires Shape(s.host) && Grows(s, AfterHost(s, e, o)) && AfterHost(s, e, o).guests == s.guests
    requires LinkOk(s, id) && LinkStep(s.host, e, id, LinkOf(s.host, id), LinkOf(o.host, id))
    requires e.Receive? ==> UpOk(s, e.u)
    ensures LinkOk(AfterHost(s, e, o), id)
  {
  }

  lemma ReadyStep(s: System, e: HostEvent, o: HostOut)
    requires HostOk(s.host) && HostOk(o.host) && ReadyOk(s) && Grows(s, AfterHost(s, e, o))
    requires Renumbers(s.host.room, o.host.room)
    requires forall i :: i in o.host.room.ready
                         ==> i in s.host.room.ready || i == s.host.room.hostSlot || Votes(s.host, e, i)
    requires e.Receive? ==> UpOk(s, e.u)
    ensures ReadyOk(AfterHost(s, e, o))
  {
    var s' := AfterHost(s, e, o);
    var r := s.host.room;
    var r' := o.host.room;
    forall i | i in r'.ready && i != r'.hostSlot && i < SEATS
      ensures HasBallot(s', r'.members[i].id, r'.configuration)
    {
      assert Core(r') == Core(r);
      assert r'.members == Core(r').members == r.members;
      assert r'.hostSlot == Core(r').hostSlot == r.hostSlot;
      assert r'.configuration == r.configuration;
      BallotStays(s, s', r.members[i].id, r.configuration);
    }
  }

  lemma GuestStays(s: System, s': System, id: u32)
    requires Grows(s, s') && s'.guests == s.guests && s'.heard == s.heard && id in s.guests && GuestOk(s, id)
    ensures GuestOk(s', id)
  {
    PendingStays(s, s', s.guests[id]);
  }

  lemma UpsStay(s: System, s': System)
    requires Grows(s, s') && s'.up == s.up && UpsOk(s)
    ensures UpsOk(s')
  {
    forall u | u in s'.up ensures UpOk(s', u) { UpStays(s, s', u); }
  }

  lemma GuestsStay(s: System, s': System)
    requires Grows(s, s') && s'.guests == s.guests && s'.heard == s.heard && GuestsOk(s)
    ensures GuestsOk(s')
  {
    forall id | id in s'.guests ensures GuestOk(s', id) { GuestStays(s, s', id); }
  }

  lemma LinksStep(s: System, e: HostEvent, o: HostOut)
    requires Shape(s.host) && Grows(s, AfterHost(s, e, o)) && AllLinksOk(s)
    requires forall id :: LinkStep(s.host, e, id, LinkOf(s.host, id), LinkOf(o.host, id))
    requires e.Receive? ==> UpOk(s, e.u)
    ensures AllLinksOk(AfterHost(s, e, o))
  {
    forall id ensures LinkOk(AfterHost(s, e, o), id) { LinkOkStep(s, e, o, id); }
  }

  lemma DownsStep(s: System, e: HostEvent, o: HostOut)
    requires Shape(s.host) && Grows(s, AfterHost(s, e, o)) && HistoryOk(AfterHost(s, e, o)) && DownsOk(s)
    requires |s.log| == s.host.chatSequence && ChatStep(s.host, o.host) && AllLinksOk(AfterHost(s, e, o))
    requires forall d :: d in o.sent ==> SentOk(s.host, o.host, d)
    ensures DownsOk(AfterHost(s, e, o))
  {
    var s' := AfterHost(s, e, o);
    forall d | d in s'.down ensures DownOk(s', d) { DownStep(s, e, o, d); }
  }

  lemma RecordsStep(s: System, e: HostEvent, o: HostOut)
    requires Shape(s.host) && Grows(s, AfterHost(s, e, o)) && RecordsOk(s) && (e.Receive? ==> UpOk(s, e.u))
    ensures RecordsOk(AfterHost(s, e, o))
  {
  }

  lemma HostTurnProtocol(s: System, e: HostEvent, o: HostOut)
    requires Shape(s.host) && Protocol(s) && HostFacts(s.host, e, o) && Live(o.host)
    requires e.Receive? ==> e.u in s.up
    ensures Protocol(AfterHost(s, e, o))
  {
    HistoryStep(s, e, o);
    HostGrows(s, e, o);
    var s' := AfterHost(s, e, o);
    ReadyStep(s, e, o);
    LinksStep(s, e, o);
    DownsStep(s, e, o);
    UpsStay(s, s');
    GuestsStay(s, s');
    RecordsStep(s, e, o);
  }

  /** A host step keeps the invariant. */
  lemma HostTurnInv(s: System, e: HostEvent)
    requires Inv(s) && Enabled(s, AtHost(e))
    ensures Inv(Turn(s, AtHost(e)))
  {
    var o := HostStep(s.host, e);
    StepFacts(s.host, e);
    if Live(o.host) { HostTurnProtocol(s, e, o); }
  }

  // ---- a guest step -------------------------------------------------------

  /** With an honest host the roster rebuilt from a packet is one the host held. */
  lemma AnnouncedRoom(s: System, d: Down)
    requires DownOk(s, d) && IsState(d) && HistoryOk(s)
    ensures InHistory(s, Announced(d)) && Announced(d) == d.body.room
  {
  }

  /** Everything the protocol needs to know about one guest step. */
  ghost predicate GuestFacts(g: Guest, e: GuestEvent, o: GuestOut)
  {
    && RoomStep(g, o.guest, e) && LineStep(g, o.guest, e) && PendingKept(g, o.guest, e)
    && (forall u :: u in o.sent ==> UpSent(g, o.guest, u))
  }

  /** A guest step starts from the protocol invariant and hears only packets that were sent. */
  ghost predicate GuestReady(s: System, id: u32, e: GuestEvent, o: GuestOut)
  {
    && id in s.guests && s.guests[id].id == id && HistoryOk(s) && GuestOk(s, id) && (e.Hear? ==> DownOk(s, e.d))
    && GuestFacts(s.guests[id], e, o) && (e == Vote(true) && o.guest != s.guests[id] ==> s.guests[id].joined)
  }

  lemma GuestTurnGrows(s: System, id: u32, e: GuestEvent, o: GuestOut)
    requires id in s.guests && id in s.heard && GuestGrows(s.guests[id], o.guest)
    ensures Grows(s, AfterGuest(s, id, e, o))
  {
  }

  lemma PendingTurn(s: System, id: u32, e: GuestEvent, o: GuestOut)
    requires GuestReady(s, id, e, o) && Grows(s, AfterGuest(s, id, e, o))
    ensures PendingOk(AfterGuest(s, id, e, o), o.guest)
  {
    var s' := AfterGuest(s, id, e, o);
    var g := s.guests[id];
    if o.guest.pending == g.pending { PendingStays(s, s', g); }
    else if e == Vote(true) && o.guest != g { assert Ballot(id, g.room) in s'.ballots; }
  }

  lemma UpsTurn(s: System, id: u32, e: GuestEvent, o: GuestOut)
    requires GuestReady(s, id, e, o) && Grows(s, AfterGuest(s, id, e, o)) && UpsOk(s)
    ensures UpsOk(AfterGuest(s, id, e, o))
  {
    var s' := AfterGuest(s, id, e, o);
    PendingTurn(s, id, e, o);
    forall u | u in s'.up ensures UpOk(s', u) {
      if u in s.up { UpStays(s, s', u); }
      else { assert UpSent(s.guests[id], o.guest, u); }
    }
  }

  lemma TailQueued(chat: seq<ChatLine>, heard: seq<Heard>, h: Heard)
    requires Tail(chat, heard)
    ensures Tail(Queued(chat, h.line), heard + [h])
  {
    var q, hs := Queued(chat, h.line), heard + [h];
    forall i | 0 <= i < |q| ensures q[i] == hs[|hs| - |q| + i].line {
      if i < |q| - 1 { assert q[i] == chat[|chat| - (|q| - 1) + i]; }
    }
  }

  lemma TailTaken(chat: seq<ChatLine>, heard: seq<Heard>)
    requires Tail(chat, heard)
    ensures Tail(TakeChat(chat), heard)
  {
  }

  /** What the guest has heard after the step. */
  ghost function HeardAfter(heard: seq<Heard>, e: GuestEvent, g: Guest, g': Guest): seq<Heard>
  {
    if e.Hear? && e.d.body.ChatEcho? && g'.chatSeen != g.chatSeen
    then heard + [Heard(e.d.sequence, e.d.body.line)] else heard
  }

  /** The queue stays the tail of what was heard. */
  lemma HeardTurn(s: System, g: Guest, e: GuestEvent, g': Guest, heard: seq<Heard>)
    requires HeardOk(s, g, heard) && LineStep(g, g', e) && (e.Hear? ==> DownOk(s, e.d))
    ensures HeardOk(s, g', HeardAfter(heard, e, g, g'))
  {
    TailTaken(g.chat, heard);
    if e.Hear? && e.d.body.ChatEcho? { TailQueued(g.chat, heard, Heard(e.d.sequence, e.d.body.line)); }
  }

  lemma OwnTurn(s: System, id: u32, e: GuestEvent, o: GuestOut)
    requires GuestReady(s, id, e, o) && Grows(s, AfterGuest(s, id, e, o))
    ensures GuestOk(AfterGuest(s, id, e, o), id)
  {
    PendingTurn(s, id, e, o);
    HeardTurn(s, s.guests[id], e, o.guest, s.heard[id]);
    assert AfterGuest(s, id, e, o).heard[id] == HeardAfter(s.heard[id], e, s.guests[id], o.guest);
    if e.Hear? && IsState(e.d) { AnnouncedRoom(s, e.d); }
  }

  lemma OtherTurn(s: System, s': System, i: u32)
    requires Grows(s, s') && i in s.guests && GuestOk(s, i)
    requires s'.guests[i] == s.guests[i] && i in s'.heard && s'.heard[i] == s.heard[i]
    ensures GuestOk(s', i)
  {
    PendingStays(s, s', s.guests[i]);
  }

  lemma GuestsTurn(s: System, id: u32, e: GuestEvent, o: GuestOut)
    requires GuestReady(s, id, e, o) && Grows(s, AfterGuest(s, id, e, o)) && GuestsOk(s)
    ensures GuestsOk(AfterGuest(s, id, e, o))
  {
    var s' := AfterGuest(s, id, e, o);
    forall i | i in s'.guests ensures GuestOk(s', i) {
      if i == id { OwnTurn(s, id, e, o); } else { OtherTurn(s, s', i); }
    }
  }

  lemma RecordsStay(s: System, id: u32, e: GuestEvent, o: GuestOut)
    requires id in s.guests && id in s.heard && Grows(s, AfterGuest(s, id, e, o)) && RecordsOk(s)
    requires e == Vote(true) && o.guest != s.guests[id] ==> InHistory(s, s.guests[id].room)
    ensures RecordsOk(AfterGuest(s, id, e, o))
  {
  }

  lemma DownsStay(s: System, s': System)
    requires Grows(s, s') && s'.down == s.down && DownsOk(s)
    ensures DownsOk(s')
  {
    forall d | d in s'.down ensures DownOk(s', d) { DownStays(s, s', d); }
  }

  lemma LinksStay(s: System, s': System)
    requires Grows(s, s') && s'.host == s.host && AllLinksOk(s)
    ensures AllLinksOk(s')
  {
    forall id ensures LinkOk(s', id) { assert LinkOk(s, id); }
  }

  lemma ReadyStays(s: System, s': System)
    requires Grows(s, s') && s'.host == s.host && Shape(s.host) && ReadyOk(s)
    ensures ReadyOk(s')
  {
    var r := s.host.room;
    forall i | i in r.ready && i != r.hostSlot && i < SEATS ensures HasBallot(s', r.members[i].id, r.configuration) {
      BallotStays(s, s', r.members[i].id, r.configuration);
    }
  }

  lemma GuestTurnProtocol(s: System, id: u32, e: GuestEvent, o: GuestOut)
    requires Shape(s.host) && Protocol(s) && GuestReady(s, id, e, o)
    ensures Protocol(AfterGuest(s, id, e, o))
  {
    var s' := AfterGuest(s, id, e, o);
    GuestTurnGrows(s, id, e, o);
    UpsTurn(s, id, e, o);
    GuestsTurn(s, id, e, o);
    DownsStay(s, s');
    LinksStay(s, s');
    ReadyStays(s, s');
    RecordsStay(s, id, e, o);
  }

  lemma GuestStepReady(s: System, id: u32, e: GuestEvent)
    requires Base(s) && Protocol(s) && Enabled(s, AtGuest(id, e))
    ensures GuestReady(s, id, e, GuestStep(s.guests[id], e))
  {
    hide GuestStep, HistoryOk, UpsOk, AllLinksOk, RecordsOk, ReadyOk, StartOk, HostOk, RoomStep, LineStep,
         PendingKept, UpSent;
    var g := s.guests[id];
    var o := GuestStep(g, e);
    GuestSteps(g, e);
    GuestPending(g, e);
    VoteNeedsSeat(g);
    forall u | u in o.sent ensures UpSent(g, o.guest, u) { GuestSent(g, e, u); }
  }

  lemma GuestBase(s: System, id: u32, e: GuestEvent)
    requires Base(s) && Enabled(s, AtGuest(id, e))
    ensures Base(AfterGuest(s, id, e, GuestStep(s.guests[id], e)))
  {
    hide GuestStep, HostOk, LineStep;
    var g := s.guests[id];
    var o := GuestStep(g, e);
    GuestSteps(g, e);
    forall u | u in o.sent ensures u.id == id && u.source == g.addr { GuestSent(g, e, u); }
  }

  /** A guest step keeps the invariant. */
  lemma GuestTurnInv(s: System, id: u32, e: GuestEvent)
    requires Inv(s) && Enabled(s, AtGuest(id, e))
    ensures Inv(Turn(s, AtGuest(id, e)))
  {
    assert Shape(s.host);
    hide GuestStep, Base, Protocol, GuestReady;
    GuestBase(s, id, e);
    if Live(s.host) {
      GuestStepReady(s, id, e);
      GuestTurnProtocol(s, id, e, GuestStep(s.guests[id], e));
    }
  }

  lemma OpenProtocol(s: System, id: u32, g: Guest)
    requires Shape(s.host) && Protocol(s) && id !in s.guests && !g.joined && g.pending == None && g.chat == []
    ensures Protocol(AfterOpen(s, id, g))
  {
    var s' := AfterOpen(s, id, g);
    assert Grows(s, s');
    DownsStay(s, s');
    UpsStay(s, s');
    LinksStay(s, s');
    ReadyStays(s, s');
    forall i | i in s'.guests ensures GuestOk(s', i) {
      if i != id { OtherTurn(s, s', i); }
    }
  }

  lemma OpensInv(s: System, e: Event)
    requires Inv(s) && e.Opens? && Enabled(s, e)
    ensures Inv(Turn(s, e))
  {
    var g := GuestOpen(e.id, e.addr, e.game, e.version, e.password, e.name, e.supported).value;
    if Live(s.host) { OpenProtocol(s, e.id, g); }
  }

  lemma TurnInv(s: System, e: Event)
    requires Inv(s)
    ensures Inv(Turn(s, e))
  {
    if Enabled(s, e) {
      match e
      case AtHost(he) => HostTurnInv(s, he);
      case AtGuest(id, ge) => GuestTurnInv(s, id, ge);
      case Opens(_, _, _, _, _, _, _) => OpensInv(s, e);
    }
  }

  /** Every run keeps the invariant. */
  lemma {:induction false} RunInv(h: Host, es: seq<Event>)
    requires Shape(h) && Opened(h)
    ensures Inv(Execute(h, es))
  {
    if es == [] { InitialInv(h); }
    else {
      RunInv(h, es[..|es| - 1]);
      TurnInv(Execute(h, es[..|es| - 1]), es[|es| - 1]);
    }
  }
}
