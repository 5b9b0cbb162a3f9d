/** A ready room can always still be launched: nothing the network did can have made it impossible. */
module LanRoomProgress {
  import opened Common
  import opened LanRoom
  import opened LanRoomHost
  import opened LanRoomEvolution
  import opened LanRoomGuest
  import opened LanRoomProtocol
  import opened LanRoomTheorems

  // ---- more of the invariant ----------------------------------------------

  /** A joined guest holds a room it can play in. */
  ghost predicate Suited(g: Guest)
  {
    g.joined ==> g.room.maxSlots <= g.supported && g.room.game == g.game && g.room.version == g.version
  }

  lemma GuestSuited(g: Guest, e: GuestEvent)
    requires Suited(g)
    ensures Suited(GuestStep(g, e).guest)
  {
    hide ValidRoom, SlotOf, Printable;
  }

  /** Every roster of the room is one of the same room, guests hold rooms that suit them, and links lead to
      the guests they name. */
  ghost predicate Settled(s: System)
  {
    && (forall n :: n in s.history ==> Fixed(s.history[n], s.host.room))
    && (forall id :: id in s.guests ==> Suited(s.guests[id]))
    && (forall id :: LinkOf(s.host, id) != NO_LINK ==> id in s.guests && LinkOf(s.host, id).addr == s.guests[id].addr)
  }

  lemma HostTurnSettled(s: System, e: HostEvent)
    requires Inv(s) && Settled(s) && Enabled(s, AtHost(e))
    ensures Settled(Turn(s, AtHost(e)))
  {
    hide HostStep, Protocol, LinkIn;
    var h' := HostStep(s.host, e).host;
    StepFixed(s.host, e);
    forall id | LinkOf(h', id) != NO_LINK
      ensures id in s.guests && LinkOf(h', id).addr == s.guests[id].addr
    {
      StepLinks(s.host, e, id);
    }
  }

  lemma GuestTurnSettled(s: System, id: u32, e: GuestEvent)
    requires Settled(s) && Enabled(s, AtGuest(id, e))
    ensures Settled(AfterGuest(s, id, e, GuestStep(s.guests[id], e)))
  {
    hide GuestStep, LinkIn;
    GuestSuited(s.guests[id], e);
    GuestSteps(s.guests[id], e);
  }

  lemma TurnSettled(s: System, e: Event)
    requires Inv(s) && Settled(s)
    ensures Settled(Turn(s, e))
  {
    hide HostStep, GuestStep, LinkIn, Protocol;
    if Enabled(s, e) {
      match e
      case AtHost(he) => HostTurnSettled(s, he);
      case AtGuest(id, ge) => GuestTurnSettled(s, id, ge);
      case Opens(_, _, _, _, _, _, _) =>
    }
  }

  lemma {:induction false} RunSettled(h: Host, es: seq<Event>)
    requires Shape(h) && Opened(h)
    ensures Settled(Execute(h, es))
  {
    hide Turn, LinkIn;
    if es == [] {
      OpenedAlone(h);
    } else {
      RunSettled(h, es[..|es| - 1]);
      RunInv(h, es[..|es| - 1]);
      TurnSettled(Execute(h, es[..|es| - 1]), es[|es| - 1]);
    }
  }

  lemma OpenedAlone(h: Host)
    requires Shape(h) && Opened(h)
    ensures Settled(Initial(h))
  {
  }

  // ---- going on from a state ----------------------------------------------

  ghost function Resume(s: System, es: seq<Event>): (s': System)
    requires Shape(s.host)
    ensures Shape(s'.host)
  {
    if es == [] then s else Turn(Resume(s, es[..|es| - 1]), es[|es| - 1])
  }

  lemma {:induction false} ExecuteResumes(h: Host, es: seq<Event>, more: seq<Event>)
    requires Shape(h)
    ensures Execute(h, es + more) == Resume(Execute(h, es), more)
  {
    hide Turn;
    if more == [] {
      assert es + more == es;
    } else {
      var n := |more| - 1;
      ExecuteResumes(h, es, more[..n]);
      assert (es + more)[..|es| + n] == es + more[..n];
    }
  }

  lemma {:induction false} ResumeConcat(s: System, es: seq<Event>, more: seq<Event>)
    requires Shape(s.host)
    ensures Resume(s, es + more) == Resume(Resume(s, es), more)
  {
    hide Turn;
    if more == [] {
      assert es + more == es;
    } else {
      var n := |more| - 1;
      ResumeConcat(s, es, more[..n]);
      assert (es + more)[..|es| + n] == es + more[..n];
    }
  }

  /** Every seated guest is there: it joined, is open and has not failed. */
  ghost predicate Present(s: System)
    requires Shape(s.host)
  {
    forall i :: 0 <= i < SEATS && s.host.links[i].id != 0 ==>
      var id := s.host.links[i].id;
      id in s.guests && id in s.heard && s.guests[id].open && s.guests[id].status >= 0 && s.guests[id].joined
  }

  /** The current roster is on its way to every seated guest. */
  ghost predicate Posted(s: System)
    requires Shape(s.host)
  {
    forall i :: 0 <= i < SEATS && s.host.links[i].id != 0 ==> SendState(s.host, i) in s.down
  }

  /** A state in the middle of such a round. */
  ghost predicate Ready(s: System)
  {
    && Inv(s) && Settled(s) && s.host.status >= 0
    && Present(s)
  }

  // ---- one guest's answer -------------------------------------------------

  /** The guest takes the roster and answers it. */
  lemma HearsRoster(g: Guest, d: Down, room: Room)
    requires IsState(d) && Announced(d) == room && d.id == g.id && d.body.Launch? == (room.starting != 0)
    requires g.joined && d.epoch == g.room.epoch && Suited(g) && Fixed(g.room, room) && ValidRoom(room)
    requires g.room.revision <= room.revision && (g.room.revision == room.revision ==> g.room == room)
    requires SlotOf(room, g.id) >= 0
    ensures var o := GuestReceive(g, d);
      && o.guest.room == room && o.guest.joined && o.guest.status >= 0 && o.guest.open == g.open
      && o.sent == [Up(g.addr, room.epoch, g.id, o.guest.sequence, room.revision,
                       if room.starting != 0 then StartAck else Ack)]
  {
    hide ValidRoom, SlotOf;
  }

  function Acked(h: Host, i: nat): Host
    requires i < |h.links|
  {
    var l := h.links[i].(roomAck := h.room.revision);
    h.(links := h.links[i := if h.room.starting != 0 then l.(startAck := h.room.revision) else l])
  }

  /** The host takes the answer. */
  lemma TakesAnswer(h: Host, i: nat, u: Up)
    requires HostOk(h) && i < SEATS && h.links[i].id != 0
    requires u.id == h.links[i].id && u.source == h.links[i].addr && u.epoch == h.room.epoch
    requires u.revision == h.room.revision && u.body == if h.room.starting != 0 then StartAck else Ack
    ensures HostReceive(h, u, false) == HostOut(Acked(h, i), [])
  {
    assert h.room.members[i].id == u.id;
    assert SlotOf(h.room, u.id) == i;
    hide SlotOf, RetiredFrom;
  }

  /** What seat i's guest is and what it is about to hear. */
  lemma SeatFacts(s: System, i: nat)
    requires Ready(s) && i < SEATS && s.host.links[i].id != 0
    ensures var id := s.host.links[i].id;
      var g := s.guests[id];
      var room := s.host.room;
      && g.id == id && g.addr == s.host.links[i].addr && Suited(g) && Fixed(g.room, room) && ValidRoom(room)
      && room.epoch == s.host.id == g.room.epoch
      && g.room.revision <= room.revision && (g.room.revision == room.revision ==> g.room == room)
      && SlotOf(room, id) >= 0 && s.host.room.members[i].id == id
  {
    hide LinkIn, ReadyOk, DownsOk, UpsOk, RecordsOk, AllLinksOk;
    var id := s.host.links[i].id;
    DistinctLinks(s.host);
    LinkAt(s.host.links, i);
    assert LinkOf(s.host, id) == s.host.links[i];
    assert GuestOk(s, id);
    assert s.host.room.members[i].id == id;
  }

  lemma GuestAnswers(s: System, i: nat) returns (u: Up)
    requires Ready(s) && i < SEATS && s.host.links[i].id != 0 && SendState(s.host, i) in s.down
    ensures var e := AtGuest(s.host.links[i].id, Hear(SendState(s.host, i)));
      var s' := Turn(s, e);
      && u in s'.up && s'.host == s.host && s'.down == s.down && Present(s')
    ensures u.id == s.host.links[i].id && u.source == s.host.links[i].addr && u.epoch == s.host.room.epoch
    ensures u.revision == s.host.room.revision && u.body == if s.host.room.starting != 0 then StartAck else Ack
  {
    hide Inv, Settled, SlotOf, ValidRoom, GuestReceive, Fixed, Suited;
    BaseOk(s);
    hide HostOk;
    var id := s.host.links[i].id;
    var d := SendState(s.host, i);
    SeatFacts(s, i);
    HearsRoster(s.guests[id], d, s.host.room);
    var o := GuestReceive(s.guests[id], d);
    u := o.sent[0];
    HearTurn(s, id, d, o);
  }

  lemma HearTurn(s: System, id: u32, d: Down, o: GuestOut)
    requires Shape(s.host) && Present(s) && id in s.guests && id in s.heard && s.guests[id].open
    requires d in s.down && d.dest == s.guests[id].addr && o == GuestReceive(s.guests[id], d) && IsState(d)
    requires o.guest.open && o.guest.status >= 0 && o.guest.joined && |o.sent| == 1
    ensures var s' := Turn(s, AtGuest(id, Hear(d)));
      o.sent[0] in s'.up && s'.host == s.host && s'.down == s.down && Present(s')
  {
    hide GuestReceive;
    StaysPresent(s, id, Hear(d), o);
  }

  lemma StaysPresent(s: System, id: u32, e: GuestEvent, o: GuestOut)
    requires Shape(s.host) && Present(s) && id in s.guests && id in s.heard
    requires o.guest.open && o.guest.status >= 0 && o.guest.joined
    ensures Present(AfterGuest(s, id, e, o))
  {
  }

  /** One seat's round trip: its guest hears the roster and the host hears back. */
  lemma SeatAnswers(s: System, i: nat) returns (es: seq<Event>)
    requires Ready(s) && Posted(s) && i < SEATS && s.host.links[i].id != 0
    ensures Resume(s, es).host == Acked(s.host, i) && Resume(s, es).down == s.down && Ready(Resume(s, es))
  {
    hide Settled, HostOk, GuestStep, HostStep, Protocol, LinkIn;
    BaseOk(s);
    var e := AtGuest(s.host.links[i].id, Hear(SendState(s.host, i)));
    var u := GuestAnswers(s, i);
    var t := Turn(s, e);
    TurnInv(s, e);
    TurnSettled(s, e);
    var f := AtHost(Receive(u, false));
    var t' := Turn(t, f);
    TurnInv(t, f);
    TurnSettled(t, f);
    AnswerTurn(t, i, u);
    es := [e, f];
    TwoTurns(s, e, f);
  }

  lemma BaseOk(s: System)
    requires Inv(s)
    ensures HostOk(s.host) && Shape(s.host)
  {
  }

  lemma AnswerTurn(t: System, i: nat, u: Up)
    requires HostOk(t.host) && i < SEATS && t.host.links[i].id != 0 && u in t.up && Present(t)
    requires u.id == t.host.links[i].id && u.source == t.host.links[i].addr && u.epoch == t.host.room.epoch
    requires u.revision == t.host.room.revision && u.body == if t.host.room.starting != 0 then StartAck else Ack
    ensures var t' := Turn(t, AtHost(Receive(u, false)));
      t'.host == Acked(t.host, i) && t'.down == t.down && Present(t')
  {
    TakesAnswer(t.host, i, u);
    hide HostReceive, HostOk;
  }

  lemma TwoTurns(s: System, e: Event, f: Event)
    requires Shape(s.host)
    ensures Resume(s, [e, f]) == Turn(Turn(s, e), f)
  {
    hide Turn;
    assert [e, f][..1] == [e] && [e][..0] == [];
    assert Resume(s, [e]) == Turn(s, e);
  }

  // ---- a round of all guests ----------------------------------------------

  /** The hosts differ at most in what their links have acknowledged. */
  ghost predicate SameButAcks(h: Host, h': Host)
  {
    && h' == h.(links := h'.links) && |h'.links| == |h.links|
    && forall i :: 0 <= i < |h.links| ==>
         h'.links[i] == h.links[i].(roomAck := h'.links[i].roomAck, startAck := h'.links[i].startAck)
  }

  /** The first n seats have acknowledged the current roster, frozen or not. */
  ghost predicate AckedBelow(h: Host, n: nat)
    requires n <= |h.links|
  {
    forall i :: 0 <= i < n && h.links[i].id != 0 ==>
      h.links[i].roomAck == h.room.revision && (h.room.starting != 0 ==> h.links[i].startAck == h.room.revision)
  }

  lemma AckedNext(h: Host, n: nat)
    requires n < |h.links| && AckedBelow(h, n)
    ensures AckedBelow(Acked(h, n), n + 1) && SameButAcks(h, Acked(h, n))
    ensures forall i :: 0 <= i < |h.links| ==> SendState(Acked(h, n), i) == SendState(h, i)
  {
  }

  lemma SameButAcksOn(h: Host, h': Host, h'': Host)
    requires SameButAcks(h, h') && SameButAcks(h', h'')
    ensures SameButAcks(h, h'')
  {
  }

  /** Seat after seat, the guests hear the roster and the host hears back. */
  lemma {:induction false} Round(s: System, n: nat) returns (es: seq<Event>)
    requires Ready(s) && Posted(s) && n <= SEATS
    ensures Ready(Resume(s, es)) && Posted(Resume(s, es))
    ensures SameButAcks(s.host, Resume(s, es).host) && AckedBelow(Resume(s, es).host, n)
  {
    hide Inv, Settled, Present, Resume;
    BaseOk(s);
    if n == 0 {
      es := [];
      ResumeNone(s);
    } else {
      var before := Round(s, n - 1);
      var t := Resume(s, before);
      BaseOk(t);
      if t.host.links[n - 1].id == 0 {
        es := before;
      } else {
        var answer := SeatAnswers(t, n - 1);
        es := before + answer;
        ResumeConcat(s, before, answer);
        AckedNext(t.host, n - 1);
        SameButAcksOn(s.host, t.host, Acked(t.host, n - 1));
        PostedStill(t, Resume(t, answer));
      }
    }
  }

  lemma ResumeNone(s: System)
    requires Shape(s.host)
    ensures Resume(s, []) == s
  {
  }

  lemma PostedStill(s: System, t: System)
    requires Shape(s.host) && Shape(t.host) && Posted(s) && t.down == s.down
    requires forall i :: 0 <= i < SEATS ==> t.host.links[i].id == s.host.links[i].id
    requires forall i :: 0 <= i < SEATS ==> SendState(t.host, i) == SendState(s.host, i)
    ensures Posted(t)
  {
    hide SendState;
  }

  lemma {:induction false} StatesReachAll(h: Host, n: nat, i: nat)
    requires Shape(h) && i < n <= SEATS && h.links[i].id != 0
    ensures SendState(h, i) in States(h, n)
  {
    hide SendState;
    if i < n - 1 { StatesReachAll(h, n - 1, i); }
  }

  /** A host event that keeps the links by id, the number of revisions in bounds and the host running. */
  lemma StaysReady(s: System, e: HostEvent, h': Host)
    requires Ready(s) && Enabled(s, AtHost(e)) && HostStep(s.host, e).host == h'
    requires h'.links == s.host.links && h'.status >= 0
    ensures Ready(Turn(s, AtHost(e))) && Turn(s, AtHost(e)).host == h'
  {
    hide Inv, Settled, HostStep;
    BaseOk(s);
    hide HostOk;
    TurnInv(s, AtHost(e));
    TurnSettled(s, AtHost(e));
  }

  lemma ResendSends(s: System)
    requires Shape(s.host)
    ensures var t := Turn(s, AtHost(Resend));
      t.host == s.host && t.down == s.down + (set d | d in States(s.host, s.host.room.maxSlots))
  {
    hide States;
  }

  lemma LinksWithin(h: Host, i: nat)
    requires HostOk(h) && i < SEATS && h.links[i].id != 0
    ensures i < h.room.maxSlots
  {
  }

  /** A resend posts the roster to everyone. */
  lemma ResendPosts(s: System)
    requires Ready(s)
    ensures var t := Turn(s, AtHost(Resend));
      Ready(t) && Posted(t) && t.host == s.host
  {
    hide Inv, Settled, States, SendState, Turn, Present;
    BaseOk(s);
    hide HostOk;
    ResendSends(s);
    StaysReady(s, Resend, s.host);
    forall i | 0 <= i < SEATS && s.host.links[i].id != 0
      ensures SendState(s.host, i) in States(s.host, s.host.room.maxSlots)
    {
      LinksWithin(s.host, i);
      StatesReachAll(s.host, s.host.room.maxSlots, i);
    }
  }

  /** A resend and a round: everyone has acknowledged the roster. */
  lemma FullRound(s: System) returns (es: seq<Event>)
    requires Ready(s)
    ensures Ready(Resume(s, es)) && SameButAcks(s.host, Resume(s, es).host) && AckedBelow(Resume(s, es).host, SEATS)
  {
    hide Inv, Settled, Present, Turn, Resume;
    BaseOk(s);
    ResendPosts(s);
    var t := Turn(s, AtHost(Resend));
    var round := Round(t, SEATS);
    es := [AtHost(Resend)] + round;
    OneTurn(s, AtHost(Resend));
    ResumeConcat(s, [AtHost(Resend)], round);
  }

  lemma OneTurn(s: System, e: Event)
    requires Shape(s.host)
    ensures Resume(s, [e]) == Turn(s, e)
  {
    hide Turn;
    assert [e][..0] == [];
  }

  // ---- the theorems -------------------------------------------------------

  /** From a frozen roster with everyone present, a resend and a round lead to the launch. */
  lemma FrozenLaunches(s: System) returns (es: seq<Event>)
    requires Ready(s) && s.host.room.starting != 0
    ensures LaunchReady(Resume(s, es).host) && Resume(s, es).host.room == s.host.room
  {
    BaseOk(s);
    es := FullRound(s);
    hide Ready;
  }

  /** From a ready roster with everyone present, the start freezes it. */
  lemma ReadyFreezes(s: System) returns (es: seq<Event>)
    requires Ready(s) && s.host.room.starting == 0 && AllReady(s.host.room) && s.host.room.revision < U32_MAX
    ensures Ready(Resume(s, es)) && Resume(s, es).host.room.starting != 0
    ensures Core(Resume(s, es).host.room) == Core(s.host.room)
  {
    hide Inv, Settled, Resume, AllReady;
    BaseOk(s);
    StartTurn(s);
    var t := Turn(s, AtHost(Start));
    var round := FullRound(t);
    var u := Resume(t, round);
    BeginTurn(u);
    var begin := AtHost(Begin(if u.host.room.session == 1 then 2 else 1));
    OneTurn(s, AtHost(Start));
    ResumeConcat(s, [AtHost(Start)], round);
    OneTurn(u, begin);
    ResumeConcat(s, [AtHost(Start)] + round, [begin]);
    es := [AtHost(Start)] + round + [begin];
  }

  lemma StartTurn(s: System)
    requires Ready(s) && s.host.room.starting == 0 && AllReady(s.host.room)
    ensures var t := Turn(s, AtHost(Start)); Ready(t) && t.host == s.host.(wantStart := true)
  {
    BaseOk(s);
    hide Inv, Settled, AllReady, HostOk, Turn, Present;
    StaysReady(s, Start, s.host.(wantStart := true));
  }

  lemma BeginFreezes(h: Host, session: u32)
    requires Shape(h) && h.wantStart && AllReady(h.room) && AckedBelow(h, SEATS) && h.room.revision < U32_MAX
    requires session != 0 && session != h.room.session
    ensures var h' := HostStep(h, Begin(session)).host;
      h'.links == h.links && h'.status == h.status && h'.room.revision == h.room.revision + 1
      && h'.room.starting != 0 && Core(h'.room) == Core(h.room)
  {
    hide AllReady;
  }

  lemma BeginTurn(u: System)
    requires Ready(u) && u.host.room.starting == 0 && AllReady(u.host.room) && u.host.room.revision < U32_MAX
    requires Shape(u.host) && u.host.wantStart && AckedBelow(u.host, SEATS)
    ensures var e := AtHost(Begin(if u.host.room.session == 1 then 2 else 1));
      var t := Turn(u, e);
      Ready(t) && t.host.room.starting != 0 && Core(t.host.room) == Core(u.host.room)
  {
    hide Inv, Settled, AllReady, Turn, Present, HostStep, Core, AckedBelow;
    var session := if u.host.room.session == 1 then 2 else 1;
    BeginFreezes(u.host, session);
    StaysReady(u, Begin(session), HostStep(u.host, Begin(session)).host);
  }

  /** In a ready room every seated guest has joined: it cast a vote. */
  lemma VotersJoined(h: Host, es: seq<Event>, i: nat)
    requires Shape(h) && Opened(h) && i < SEATS
    requires var s := Execute(h, es);
             Live(s.host) && AllReady(s.host.room) && s.host.links[i].id != 0
    ensures var s := Execute(h, es); s.host.links[i].id in s.guests && s.guests[s.host.links[i].id].joined
  {
    hide Turn, Execute;
    RunInv(h, es);
    var b := VoteOf(Execute(h, es), i);
    hide Inv, HostOk, AllReady;
    var k := BallotCast(h, es, b);
    assert es[..|es|] == es;
    GuestNeverGoesBack(h, es, k, |es|, b.id);
  }

  lemma VoteOf(s: System, i: nat) returns (b: Ballot)
    requires Inv(s) && Live(s.host) && AllReady(s.host.room) && i < SEATS && s.host.links[i].id != 0
    ensures b in s.ballots && b.id == s.host.links[i].id
  {
    hide HistoryOk, DownsOk, UpsOk, GuestsOk, AllLinksOk, RecordsOk, StartOk;
    var r := s.host.room;
    var id := s.host.links[i].id;
    assert r.members[i].id == id && i in Occupied(r) && i in r.ready;
    assert HasBallot(s, id, r.configuration);
    b :| b in s.ballots && b.id == id && b.view.configuration == r.configuration;
  }

  /** The peers that could go on: the host and every seated guest are open and have not failed. */
  ghost predicate Willing(s: System)
    requires Shape(s.host)
  {
    && s.host.status >= 0
    && forall i :: 0 <= i < SEATS && s.host.links[i].id != 0 ==>
         s.host.links[i].id in s.guests ==>
           s.guests[s.host.links[i].id].open && s.guests[s.host.links[i].id].status >= 0
  }

  lemma WillingIsReady(h: Host, es: seq<Event>)
    requires Shape(h) && Opened(h)
    requires var s := Execute(h, es); AllReady(s.host.room) && Willing(s)
    ensures Ready(Execute(h, es))
  {
    RunInv(h, es);
    RunSettled(h, es);
    var s := Execute(h, es);
    hide Execute, Settled, AllReady;
    forall i | 0 <= i < SEATS && s.host.links[i].id != 0
      ensures s.host.links[i].id in s.guests && s.host.links[i].id in s.heard && s.guests[s.host.links[i].id].joined
    {
      VotersJoined(h, es, i);
      assert GuestOk(s, s.host.links[i].id);
    }
  }

  /**
   * Whatever was lost, repeated or reordered so far: a start that is under way can still be completed while
   * nobody has left or failed.
   */
  lemma StartCanFinish(h: Host, es: seq<Event>) returns (more: seq<Event>)
    requires Shape(h) && Opened(h)
    requires var s := Execute(h, es); s.host.room.starting != 0 && Willing(s)
    ensures var t := Execute(h, es + more); LaunchReady(t.host) && t.host.room == Execute(h, es).host.room
  {
    StartMeansReady(h, es);
    WillingIsReady(h, es);
    hide Execute, Ready, LaunchReady;
    more := FrozenLaunches(Execute(h, es));
    ExecuteResumes(h, es, more);
  }

  /** A room whose members are all ready can be launched, with the same members, seats, caps and mod set. */
  lemma ReadyCanLaunch(h: Host, es: seq<Event>) returns (more: seq<Event>)
    requires Shape(h) && Opened(h)
    requires var s := Execute(h, es);
             s.host.room.revision < U32_MAX && s.host.room.starting == 0 && AllReady(s.host.room) && Willing(s)
    ensures var t := Execute(h, es + more); LaunchReady(t.host) && Core(t.host.room) == Core(Execute(h, es).host.room)
  {
    WillingIsReady(h, es);
    hide Execute, Ready, LaunchReady, Resume;
    var s := Execute(h, es);
    var freeze := ReadyFreezes(s);
    var finish := FrozenLaunches(Resume(s, freeze));
    more := freeze + finish;
    ResumeConcat(s, freeze, finish);
    ExecuteResumes(h, es, more);
  }

  /** Some continuation launches the room with the same members, seats, caps and mod set. */
  ghost predicate Launchable(h: Host, es: seq<Event>)
    requires Shape(h)
  {
    exists more: seq<Event> ::
      LaunchReady(Execute(h, es + more).host) && Core(Execute(h, es + more).host.room) == Core(Execute(h, es).host.room)
  }

  /** With the counter full there is no number left for the frozen roster. */
  lemma FullNeverLaunches(h: Host, es: seq<Event>, more: seq<Event>)
    requires Shape(h) && Opened(h) && Execute(h, es).host.room.starting == 0
    requires Execute(h, es).host.room.revision == U32_MAX
    ensures !LaunchReady(Execute(h, es + more).host)
  {
    hide Execute, Turn, Core;
    var all := es + more;
    if LaunchReady(Execute(h, all).host) {
      assert all[..|es|] == es && all[..|all|] == all;
      SnapshotConsistency(h, all, |es|, |all|);
    }
  }

  /** A ready room can be launched exactly while the revision counter has room for one more roster. */
  lemma LaunchableIff(h: Host, es: seq<Event>)
    requires Shape(h) && Opened(h)
    requires var s := Execute(h, es); s.host.room.starting == 0 && AllReady(s.host.room) && Willing(s)
    ensures Launchable(h, es) <==> Execute(h, es).host.room.revision < U32_MAX
  {
    hide Execute, LaunchReady, AllReady, Willing, Core;
    if Execute(h, es).host.room.revision < U32_MAX {
      var more := ReadyCanLaunch(h, es);
    } else {
      forall more: seq<Event> ensures !LaunchReady(Execute(h, es + more).host) { FullNeverLaunches(h, es, more); }
    }
  }
}
