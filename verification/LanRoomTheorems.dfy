/** What holds over whole runs of the waiting room, whatever the network loses, repeats or reorders. */
module LanRoomTheorems {
  import opened Common
  import opened LanRoom
  import opened LanRoomHost
  import opened LanRoomEvolution
  import opened LanRoomGuest
  import opened LanRoomProtocol

  /** The state of the run `es` before its event number `k`. */
  ghost function At(h: Host, es: seq<Event>, k: nat): (s: System)
    requires Shape(h) && k <= |es|
    ensures Shape(s.host)
  {
    Execute(h, es[..k])
  }

  lemma NextState(h: Host, es: seq<Event>, k: nat)
    requires Shape(h) && k < |es|
    ensures At(h, es, k + 1) == Turn(At(h, es, k), es[k])
  {
    assert es[..k + 1][..k] == es[..k];
  }

  // ---- launch -------------------------------------------------------------

  /** A guest that acknowledged the host's current revision holds the host's roster. */
  lemma ReachedAgrees(s: System, id: u32)
    requires Inv(s) && Live(s.host) && Reached(s, id, s.host.room.revision)
    ensures s.guests[id].room == s.host.room
  {
    assert GuestOk(s, id);
  }

  /** Launch agreement: whenever the host may launch, every seated guest holds exactly the host's roster. */
  lemma LaunchAgreement(h: Host, es: seq<Event>, slot: nat)
    requires Shape(h) && Opened(h) && slot < SEATS
    requires var s := Execute(h, es); LaunchReady(s.host) && s.host.links[slot].id != 0
    ensures var s := Execute(h, es);
            var id := s.host.links[slot].id;
            id in s.guests && s.guests[id].joined && s.guests[id].room == s.host.room
            && s.host.room.members[slot].id == id
  {
    RunInv(h, es);
    var s := Execute(h, es);
    var id := s.host.links[slot].id;
    DistinctLinks(s.host);
    LinkAt(s.host.links, slot);
    assert LinkOk(s, id);
    ReachedAgrees(s, id);
  }

  /** Start barrier: the roster freezes only at a moment when every seated guest holds exactly that roster. */
  lemma StartBarrier(h: Host, es: seq<Event>, session: u32, slot: nat)
    requires Shape(h) && Opened(h) && slot < SEATS
    requires var s := Execute(h, es);
             Live(s.host) && s.host.links[slot].id != 0 && s.host.room.starting == 0
             && HostBegin(s.host, session).room.starting != 0
    ensures var s := Execute(h, es);
            s.host.links[slot].id in s.guests && s.guests[s.host.links[slot].id].room == s.host.room
  {
    RunInv(h, es);
    var s := Execute(h, es);
    DistinctLinks(s.host);
    LinkAt(s.host.links, slot);
    assert LinkOk(s, s.host.links[slot].id);
    ReachedAgrees(s, s.host.links[slot].id);
  }

  // ---- snapshots ----------------------------------------------------------

  lemma TurnKeeps(s: System, e: Event)
    requires Inv(s) && Live(Turn(s, e).host)
    ensures Grows(s, Turn(s, e))
  {
    hide HostStep, GuestStep, GuestOpen, DownsOk, UpsOk, GuestsOk, AllLinksOk, RecordsOk, ReadyOk, Grows;
    if Enabled(s, e) {
      match e
      case AtHost(he) => HostKeeps(s, he);
      case AtGuest(id, ge) => GuestKeeps(s, id, ge);
      case Opens(id, addr, game, version, password, name, supported) =>
        OpenKeeps(s, id, GuestOpen(id, addr, game, version, password, name, supported).value);
    } else {
      GrowsSelf(s);
    }
  }

  lemma HostKeeps(s: System, e: HostEvent)
    requires Inv(s) && Enabled(s, AtHost(e)) && Live(HostStep(s.host, e).host)
    ensures Grows(s, AfterHost(s, e, HostStep(s.host, e)))
  {
    hide HostStep, DownsOk, UpsOk, GuestsOk, AllLinksOk, RecordsOk, ReadyOk;
    StepLive(s.host, e);
    StepFixed(s.host, e);
    HostGrows(s, e, HostStep(s.host, e));
  }

  lemma GuestKeeps(s: System, id: u32, e: GuestEvent)
    requires Inv(s) && Enabled(s, AtGuest(id, e))
    ensures Grows(s, AfterGuest(s, id, e, GuestStep(s.guests[id], e)))
  {
    hide GuestStep, Inv;
    GuestSteps(s.guests[id], e);
    GuestTurnGrows(s, id, e, GuestStep(s.guests[id], e));
  }

  lemma OpenKeeps(s: System, id: u32, g: Guest)
    requires Shape(s.host) && id !in s.guests
    ensures Grows(s, AfterOpen(s, id, g))
  {
  }

  lemma GrowsSelf(s: System)
    ensures Grows(s, s)
  {
  }

  /** Nothing recorded is ever forgotten, and no counter goes back, between two moments of a run. */
  lemma {:induction false} RunGrows(h: Host, es: seq<Event>, i: nat, j: nat)
    requires Shape(h) && Opened(h) && i <= j <= |es| && Live(At(h, es, j).host)
    ensures Grows(At(h, es, i), At(h, es, j))
    decreases j - i
  {
    hide Grows, Turn, Inv, Execute, Live, Opened;
    if i == j {
      GrowsSelf(At(h, es, i));
    } else {
      NextState(h, es, j - 1);
      RunInv(h, es[..j - 1]);
      RunInv(h, es[..j]);
      LiveBefore(At(h, es, j - 1), es[j - 1]);
      TurnKeeps(At(h, es, j - 1), es[j - 1]);
      RunGrows(h, es, i, j - 1);
      GrowsOn(At(h, es, i), At(h, es, j - 1), At(h, es, j));
    }
  }

  lemma LiveBefore(s: System, e: Event)
    requires Inv(s) && Live(Turn(s, e).host)
    ensures Live(s.host)
  {
    hide HostStep, GuestStep;
    if Enabled(s, e) && e.AtHost? { StepLive(s.host, e.he); }
  }

  /** A host that is live now was live all along. */
  lemma {:induction false} LiveEarlier(h: Host, es: seq<Event>, i: nat, j: nat)
    requires Shape(h) && Opened(h) && i <= j <= |es| && Live(At(h, es, j).host)
    ensures Live(At(h, es, i).host)
    decreases j - i
  {
    hide Turn, Execute, Live, Inv;
    if i < j {
      NextState(h, es, j - 1);
      RunInv(h, es[..j - 1]);
      LiveBefore(At(h, es, j - 1), es[j - 1]);
      LiveEarlier(h, es, i, j - 1);
    }
  }

  lemma GrowsOn(s: System, t: System, u: System)
    requires Grows(s, t) && Grows(t, u)
    ensures Grows(s, u)
  {
  }

  /** One roster per revision, one core per configuration number: any two moments of a run at which the
      host's numbers agree. */
  lemma SnapshotConsistency(h: Host, es: seq<Event>, i: nat, j: nat)
    requires Shape(h) && Opened(h) && i <= j <= |es| && Live(At(h, es, j).host)
    ensures var r := At(h, es, i).host.room;
            var r' := At(h, es, j).host.room;
            && r.revision <= r'.revision && r.configuration <= r'.configuration
            && (r.revision == r'.revision ==> r == r')
            && (r.configuration == r'.configuration ==> Core(r) == Core(r'))
  {
    hide Turn, Execute, HostOk, Core;
    RunInv(h, es[..i]);
    RunInv(h, es[..j]);
    LiveEarlier(h, es, i, j);
    RunGrows(h, es, i, j);
    var s' := At(h, es, j);
    assert InHistory(s', At(h, es, i).host.room);
    assert ConfigOrder(s'.history[At(h, es, i).host.room.revision], s'.history[s'.host.room.revision]);
  }

  /** Every revision on record was the host's roster at some moment. */
  lemma {:induction false} HistoryHappened(h: Host, es: seq<Event>, n: u32) returns (k: nat)
    requires Shape(h) && n in Execute(h, es).history
    ensures k <= |es| && At(h, es, k).host.room == Execute(h, es).history[n]
  {
    assert es[..|es|] == es;
    var s := Execute(h, es);
    if s.host.room == s.history[n] { return |es|; }
    var front := es[..|es| - 1];
    k := HistoryHappened(h, front, n);
    assert front[..k] == es[..k];
  }

  /** A joined guest's roster is always one the host held at some earlier moment. */
  lemma GuestHoldsPast(h: Host, es: seq<Event>, id: u32) returns (k: nat)
    requires Shape(h) && Opened(h)
    requires var s := Execute(h, es); Live(s.host) && id in s.guests && s.guests[id].joined
    ensures k <= |es| && At(h, es, k).host.room == Execute(h, es).guests[id].room
  {
    RunInv(h, es);
    var s := Execute(h, es);
    assert GuestOk(s, id);
    k := HistoryHappened(h, es, s.guests[id].room.revision);
  }

  /** A joined guest never goes back to an older roster. */
  lemma GuestNeverGoesBack(h: Host, es: seq<Event>, i: nat, j: nat, id: u32)
    requires Shape(h) && Opened(h) && i <= j <= |es| && Live(At(h, es, j).host)
    requires id in At(h, es, i).guests && At(h, es, i).guests[id].joined
    ensures id in At(h, es, j).guests && At(h, es, j).guests[id].joined
    ensures At(h, es, i).guests[id].room.revision <= At(h, es, j).guests[id].room.revision
  {
    RunGrows(h, es, i, j);
  }

  /** No packet ever sent contradicts a guest: the same-revision-different-roster branch is dead. */
  lemma NeverContradicts(h: Host, es: seq<Event>, id: u32, d: Down)
    requires Shape(h) && Opened(h)
    requires var s := Execute(h, es);
             Live(s.host) && id in s.guests && d in s.down && IsState(d)
    ensures !Contradicts(Execute(h, es).guests[id], Announced(d))
  {
    RunInv(h, es);
    var s := Execute(h, es);
    assert GuestOk(s, id) && DownOk(s, d);
    AnnouncedRoom(s, d);
  }

  // ---- consent ------------------------------------------------------------

  /** Every ballot on record was cast, by that guest, looking at that roster. */
  lemma {:induction false} BallotCast(h: Host, es: seq<Event>, b: Ballot) returns (k: nat)
    requires Shape(h) && b in Execute(h, es).ballots
    ensures k < |es| && es[k] == AtGuest(b.id, Vote(true))
    ensures var s := At(h, es, k); b.id in s.guests && s.guests[b.id].joined && s.guests[b.id].room == b.view
  {
    hide HostStep, GuestStep, GuestOpen;
    var front := es[..|es| - 1];
    if b in Execute(h, front).ballots {
      k := BallotCast(h, front, b);
      assert front[..k] == es[..k];
    } else {
      k := |es| - 1;
      if es[k].AtGuest? { VoteNeedsSeat(Execute(h, front).guests[es[k].id]); }
    }
  }

  /** The event `e` delivers `u` to the host. */
  ghost predicate Delivers(s: System, e: Event, u: Up)
  {
    e.AtHost? && e.he.Receive? && e.he.u == u && Enabled(s, e)
  }

  /** The event is a READY(a) of `id` for configuration `c` that the host acts on. */
  ghost predicate Tallies(s: System, e: Event, id: u32, c: u32, a: u32)
    requires Shape(s.host)
  {
    e.AtHost? && e.he.Receive? && Enabled(s, e) && Counts(s.host, e.he.u, id, a) && c == s.host.room.configuration
  }

  /** Every vote the host counts was cast earlier by that guest, joined, looking at that configuration. */
  lemma CountedWasCast(h: Host, es: seq<Event>, counted: nat, id: u32, c: u32) returns (cast: nat)
    requires Shape(h) && Opened(h) && counted < |es| && Live(At(h, es, counted).host)
    requires Tallies(At(h, es, counted), es[counted], id, c, 1)
    ensures cast < counted && es[cast] == AtGuest(id, Vote(true)) && id in At(h, es, cast).guests
    ensures At(h, es, cast).guests[id].joined && At(h, es, cast).guests[id].room.configuration == c
  {
    hide Turn, Execute, Inv;
    RunInv(h, es[..counted]);
    var b := BallotFor(At(h, es, counted), es[counted].he.u);
    cast := BallotCast(h, es[..counted], b);
    assert es[..counted][..cast] == es[..cast];
  }

  lemma BallotFor(s: System, u: Up) returns (b: Ballot)
    requires Inv(s) && Live(s.host) && u in s.up && u.body.Op? && u.body.op == OP_READY && u.body.a == 1
    ensures b in s.ballots && b.id == u.id && b.view.configuration == u.body.c
  {
    hide HistoryOk, DownsOk, GuestsOk, AllLinksOk, RecordsOk, StartOk, ReadyOk, HostOk;
    assert UpOk(s, u);
    b :| b in s.ballots && b.id == u.id && b.view.configuration == u.body.c;
  }

  /** The last vote a ready guest had counted under this configuration was READY(1). */
  lemma {:induction false} LastVoteIsReady(h: Host, es: seq<Event>, n: nat, i: nat) returns (counted: nat)
    requires Shape(h) && Opened(h) && n <= |es| && i < SEATS
    requires i in At(h, es, n).host.room.ready && i != At(h, es, n).host.room.hostSlot
    ensures var r := At(h, es, n).host.room;
      && counted < n && Tallies(At(h, es, counted), es[counted], r.members[i].id, r.configuration, 1)
      && forall k :: counted < k < n ==> !Tallies(At(h, es, k), es[k], r.members[i].id, r.configuration, 0)
    decreases n
  {
    hide Turn, Tallies, Inv, Execute, Opened;
    if n == 0 {
      OpenedUnready(h);
      ExecuteNone(h);
    } else {
      var s := At(h, es, n - 1);
      RunInv(h, es[..n - 1]);
      NextState(h, es, n - 1);
      TurnTally(s, es[n - 1], i);
      if Tallies(s, es[n - 1], s.host.room.members[i].id, s.host.room.configuration, 1) {
        counted := n - 1;
      } else {
        counted := LastVoteIsReady(h, es, n - 1, i);
      }
    }
  }

  lemma LastTurn(h: Host, es: seq<Event>)
    requires Shape(h) && es != []
    ensures Execute(h, es) == Turn(Execute(h, es[..|es| - 1]), es[|es| - 1])
  {
  }

  lemma ExecuteNone(h: Host)
    requires Shape(h)
    ensures Execute(h, []) == Initial(h)
  {
  }

  lemma OpenedUnready(h: Host)
    requires Opened(h)
    ensures h.room.ready == {}
  {
  }

  lemma TurnTally(s: System, e: Event, i: nat)
    requires Inv(s) && i < SEATS && i in Turn(s, e).host.room.ready && i != Turn(s, e).host.room.hostSlot
    ensures var r := s.host.room;
      var r' := Turn(s, e).host.room;
      && r'.members == r.members && r'.configuration == r.configuration && r'.hostSlot == r.hostSlot
      && (Tallies(s, e, r.members[i].id, r.configuration, 1)
          || (i in r.ready && !Tallies(s, e, r.members[i].id, r.configuration, 0)))
  {
    hide HostStep, GuestStep, Counts, Protocol;
    if Enabled(s, e) && e.AtHost? { StepTally(s.host, e.he, i); }
  }

  /** Informed consent: while a start is under way, every seated guest had voted READY(1) looking at a roster with
      the configuration being launched (the same members, seats, caps and mod set), the host had counted that vote,
      and it has counted no withdrawal of it since. */
  lemma InformedReady(h: Host, es: seq<Event>, slot: nat) returns (cast: nat, counted: nat)
    requires Shape(h) && Opened(h) && slot < SEATS
    requires var s := Execute(h, es);
             Live(s.host) && s.host.room.starting != 0 && s.host.links[slot].id != 0
    ensures var s := Execute(h, es);
            var id := s.host.links[slot].id;
            && cast < counted < |es| && es[cast] == AtGuest(id, Vote(true)) && id in At(h, es, cast).guests
            && var view := At(h, es, cast).guests[id];
               view.joined && view.room.configuration == s.host.room.configuration
               && Core(view.room) == Core(s.host.room)
               && Tallies(At(h, es, counted), es[counted], id, s.host.room.configuration, 1)
               && forall k :: counted < k < |es| ==> !Tallies(At(h, es, k), es[k], id, s.host.room.configuration, 0)
  {
    hide Turn, Execute, Tallies;
    RunInv(h, es);
    var s := Execute(h, es);
    var id := s.host.links[slot].id;
    LaunchingReady(s, slot);
    assert es[..|es|] == es;
    counted := LastVoteIsReady(h, es, |es|, slot);
    LiveEarlier(h, es, counted, |es|);
    cast := CountedWasCast(h, es, counted, id, s.host.room.configuration);
    SameCore(h, es, cast, id);
  }

  lemma LaunchingReady(s: System, slot: nat)
    requires Inv(s) && Live(s.host) && s.host.room.starting != 0 && slot < SEATS && s.host.links[slot].id != 0
    ensures slot in s.host.room.ready && slot != s.host.room.hostSlot
    ensures s.host.room.members[slot].id == s.host.links[slot].id
  {
    assert slot in Occupied(s.host.room);
  }

  /** A guest that once held the host's present configuration held its present core. */
  lemma SameCore(h: Host, es: seq<Event>, k: nat, id: u32)
    requires Shape(h) && Opened(h) && k <= |es| && Live(Execute(h, es).host)
    requires id in At(h, es, k).guests && At(h, es, k).guests[id].joined
    requires At(h, es, k).guests[id].room.configuration == Execute(h, es).host.room.configuration
    ensures Core(At(h, es, k).guests[id].room) == Core(Execute(h, es).host.room)
  {
    hide Turn, Execute, Core;
    assert es[..|es|] == es;
    LiveEarlier(h, es, k, |es|);
    var j := GuestHoldsPast(h, es[..k], id);
    assert es[..k][..j] == es[..j];
    SnapshotConsistency(h, es, j, |es|);
  }

  // ---- request and chat sequencing ----------------------------------------

  /** While a guest stays seated its request and chat counters never go back, wherever its seat moves. */
  lemma CountersGrow(s: System, e: Event, id: u32)
    requires Inv(s) && Seated(s.host, id) && Seated(Turn(s, e).host, id)
    ensures LinkOf(s.host, id).sequence <= LinkOf(Turn(s, e).host, id).sequence
    ensures LinkOf(s.host, id).chatSequence <= LinkOf(Turn(s, e).host, id).chatSequence
  {
    hide HostStep, GuestStep, GuestOpen, Protocol, LinkIn;
    if Enabled(s, e) && e.AtHost? { StepLinks(s.host, e.he, id); }
  }

  lemma {:induction false} CountersGrowOverRun(h: Host, es: seq<Event>, i: nat, j: nat, id: u32)
    requires Shape(h) && Opened(h) && i <= j <= |es| && forall k :: i <= k <= j ==> Seated(At(h, es, k).host, id)
    ensures LinkOf(At(h, es, i).host, id).sequence <= LinkOf(At(h, es, j).host, id).sequence
    ensures LinkOf(At(h, es, i).host, id).chatSequence <= LinkOf(At(h, es, j).host, id).chatSequence
    decreases j - i
  {
    hide Turn, Execute, LinkIn, HostOk, Protocol;
    if i < j {
      CountersGrowOverRun(h, es, i, j - 1, id);
      NextState(h, es, j - 1);
      RunInv(h, es[..j - 1]);
      CountersGrow(At(h, es, j - 1), es[j - 1], id);
    }
  }

  /** Recording a request stores its number. */
  lemma RecordStores(h: Host, u: Up, due: bool)
    requires HostOk(h) && u.source != 0 && Records(h, u)
    ensures LinkOf(HostReceive(h, u, due).host, u.id).sequence == u.sequence
  {
    var slot := SlotOf(h.room, u.id);
    assert h.links[slot].id == u.id != 0;
    OwnerLink(h, u.id);
    OpLinks(h, slot, u, u.id);
  }

  lemma SpeechStores(h: Host, u: Up, due: bool)
    requires HostOk(h) && u.source != 0 && Speaks(h, u)
    ensures LinkOf(HostReceive(h, u, due).host, u.id).chatSequence == u.sequence
  {
    var slot := SlotOf(h.room, u.id);
    assert h.links[slot].id == u.id != 0;
    hide HostChat, LinkIn, RetiredFrom, HostOk, SlotOf;
    OwnerLink(h, u.id);
    ChatLinks(h, slot, u, u.id);
  }

  /** Request sequencing: within one seating the numbers of the requests the host records strictly increase,
      so none is applied twice. */
  lemma RequestsIncrease(h: Host, es: seq<Event>, i: nat, j: nat, u: Up, v: Up)
    requires Shape(h) && Opened(h) && i < j < |es| && u.id == v.id
    requires Delivers(At(h, es, i), es[i], u) && Records(At(h, es, i).host, u)
    requires Delivers(At(h, es, j), es[j], v) && Records(At(h, es, j).host, v)
    requires forall k :: i < k <= j ==> Seated(At(h, es, k).host, u.id)
    ensures u.sequence < v.sequence
  {
    RunInv(h, es[..i]);
    NextState(h, es, i);
    RecordStores(At(h, es, i).host, u, es[i].he.due);
    CountersGrowOverRun(h, es, i + 1, j, u.id);
  }

  /** Chat requests likewise: within one seating no request is broadcast twice. */
  lemma ChatRequestsIncrease(h: Host, es: seq<Event>, i: nat, j: nat, u: Up, v: Up)
    requires Shape(h) && Opened(h) && i < j < |es| && u.id == v.id
    requires Delivers(At(h, es, i), es[i], u) && Speaks(At(h, es, i).host, u)
    requires Delivers(At(h, es, j), es[j], v) && Speaks(At(h, es, j).host, v)
    requires forall k :: i < k <= j ==> Seated(At(h, es, k).host, u.id)
    ensures u.sequence < v.sequence
  {
    RunInv(h, es[..i]);
    NextState(h, es, i);
    SpeechStores(At(h, es, i).host, u, es[i].he.due);
    CountersGrowOverRun(h, es, i + 1, j, u.id);
  }

  lemma {:induction false} RecordedHappened(h: Host, es: seq<Event>, p: (u32, u32)) returns (k: nat, u: Up)
    requires Shape(h) && p in Execute(h, es).recorded
    ensures k < |es| && Delivers(At(h, es, k), es[k], u) && Records(At(h, es, k).host, u)
    ensures u.id == p.0 && u.sequence == p.1
  {
    var front := es[..|es| - 1];
    if p in Execute(h, front).recorded {
      k, u := RecordedHappened(h, front, p);
      assert front[..k] == es[..k];
    } else {
      k := |es| - 1;
      u := es[k].he.u;
    }
  }

  lemma HearClears(g: Guest, d: Down)
    requires g.pending.Some? && GuestReceive(g, d).guest.pending == None
    ensures IsState(d) && d.id == g.id && d.sequence >= g.sequence
  {
  }

  /** A guest drops its pending request only after the host recorded exactly that number. */
  lemma PendingClearedAfterRecord(h: Host, es: seq<Event>, id: u32, d: Down) returns (k: nat, u: Up)
    requires Shape(h) && Opened(h)
    requires var s := Execute(h, es);
             Live(s.host) && Enabled(s, AtGuest(id, Hear(d))) && s.guests[id].pending.Some?
             && GuestReceive(s.guests[id], d).guest.pending == None
    ensures k < |es| && Delivers(At(h, es, k), es[k], u) && Records(At(h, es, k).host, u)
    ensures u.id == id && u.sequence == Execute(h, es).guests[id].sequence
  {
    hide Turn, Execute, HostOk, LinkIn, GuestReceive;
    RunInv(h, es);
    var s := Execute(h, es);
    var g := s.guests[id];
    HearClears(g, d);
    assert GuestOk(s, id) && DownOk(s, d);
    k, u := RecordedHappened(h, es, (id, d.sequence));
  }

  // ---- the freeze ---------------------------------------------------------

  /** The event is a seated guest's LEAVE reaching the host. */
  ghost predicate Departs(s: System, e: Event)
    requires Shape(s.host)
  {
    e.AtHost? && e.he.Receive? && e.he.u.body.Leave? && Owns(s.host, e.he.u)
  }

  lemma StepFrozen(h: Host, e: HostEvent)
    requires Shape(h) && !h.wantStart && h.room.starting != 0
    requires !(e.Receive? && e.u.body.Leave? && Owns(h, e.u))
    ensures HostStep(h, e).host.room == h.room && !HostStep(h, e).host.wantStart
  {
    hide HostReceive, States, Closes, Echoes, ValidRoom, LaunchReady, AllReady, AllAcked;
    if e.Receive? { ReceiveFrozen(h, e.u, e.due); }
  }

  lemma TurnFrozen(s: System, e: Event)
    requires Shape(s.host) && !s.host.wantStart && s.host.room.starting != 0 && !Departs(s, e)
    ensures Turn(s, e).host.room == s.host.room && !Turn(s, e).host.wantStart
  {
    hide HostStep, GuestStep;
    if Enabled(s, e) && e.AtHost? { StepFrozen(s.host, e.he); }
  }

  lemma {:induction false} RunFrozen(h: Host, es: seq<Event>, i: nat, j: nat)
    requires Shape(h) && i <= j <= |es|
    requires At(h, es, i).host.room.starting != 0 && !At(h, es, i).host.wantStart
    requires forall k :: i <= k < j ==> !Departs(At(h, es, k), es[k])
    ensures At(h, es, j).host.room == At(h, es, i).host.room && !At(h, es, j).host.wantStart
    decreases j - i
  {
    hide Turn, Execute;
    if i < j {
      RunFrozen(h, es, i, j - 1);
      NextState(h, es, j - 1);
      TurnFrozen(At(h, es, j - 1), es[j - 1]);
    }
  }

  /** Start freeze: from the moment a start is under way until a seated guest leaves, no event changes the roster. */
  lemma StartFreeze(h: Host, es: seq<Event>, i: nat, j: nat)
    requires Shape(h) && Opened(h) && i <= j <= |es|
    requires At(h, es, i).host.room.starting != 0 && Live(At(h, es, i).host)
    requires forall k :: i <= k < j ==> !Departs(At(h, es, k), es[k])
    ensures At(h, es, j).host.room == At(h, es, i).host.room
  {
    RunInv(h, es[..i]);
    hide Execute, HostOk;
    RunFrozen(h, es, i, j);
  }

  /** A start under way has at least two members, all ready, and a session; a wanted start has a roster
      that is ready and not yet frozen. */
  lemma StartMeansReady(h: Host, es: seq<Event>)
    requires Shape(h) && Opened(h) && Live(Execute(h, es).host)
    ensures var s := Execute(h, es).host;
            && (s.room.starting != 0 ==>
                  |Occupied(s.room)| >= 2 && s.room.ready == Occupied(s.room) && s.room.session != 0)
            && (s.wantStart ==> s.room.starting == 0 && |Occupied(s.room)| >= 2 && s.room.ready == Occupied(s.room))
  {
    hide Turn, HistoryOk, DownsOk, UpsOk, GuestsOk, AllLinksOk, RecordsOk, ReadyOk;
    RunInv(h, es);
  }

  /** In every run, without limit, the host keeps a valid roster, stays seated itself, and keeps links and
      guest seats in agreement, addresses distinct, and the last 16 removed ids out. */
  lemma HostInvariant(h: Host, es: seq<Event>)
    requires Shape(h) && Opened(h)
    ensures HostOk(Execute(h, es).host)
  {
    RunInv(h, es);
  }

  // ---- chat ---------------------------------------------------------------

  /** The lines a guest accepts are lines of the host's log, in the host's order, without repeats. */
  lemma ChatInHostOrder(h: Host, es: seq<Event>, id: u32, i: nat, j: nat)
    requires Shape(h) && Opened(h)
    requires var s := Execute(h, es);
             Live(s.host) && id in s.guests && id in s.heard && i < j < |s.heard[id]|
    ensures var s := Execute(h, es);
            var heard := s.heard[id];
            && 1 <= heard[i].number < heard[j].number <= |s.log|
            && heard[i].line == s.log[heard[i].number - 1] && heard[j].line == s.log[heard[j].number - 1]
  {
    RunInv(h, es);
    assert GuestOk(Execute(h, es), id);
  }

  /** Where the next line a guest takes stands among the lines it heard. */
  ghost function NextTaken(s: System, id: u32): int
    requires id in s.guests && id in s.heard
  {
    |s.heard[id]| - |s.guests[id].chat|
  }

  lemma GuestTakes(s: System, id: u32, e: GuestEvent, o: GuestOut)
    requires id in s.guests && id in s.heard && LineStep(s.guests[id], o.guest, e)
    ensures var s' := AfterGuest(s, id, e, o);
            && NextTaken(s, id) <= NextTaken(s', id) && s.heard[id] <= s'.heard[id]
            && (e.TakeLine? && o.guest.chat == TakeChat(s.guests[id].chat) && s.guests[id].chat != []
                ==> NextTaken(s', id) == NextTaken(s, id) + 1)
  {
  }

  lemma QueueIsTail(h: Host, es: seq<Event>, id: u32)
    requires Shape(h) && Opened(h)
    requires var s := Execute(h, es); Live(s.host) && id in s.guests
    ensures var s := Execute(h, es); id in s.heard && Tail(s.guests[id].chat, s.heard[id])
  {
    RunInv(h, es);
    assert GuestOk(Execute(h, es), id);
  }

  lemma OthersUntouched(s: System, e: Event, id: u32)
    requires Shape(s.host) && id in s.guests && id in s.heard && !(Enabled(s, e) && e.AtGuest? && e.id == id)
    ensures var s' := Turn(s, e);
            id in s'.guests && id in s'.heard && s'.guests[id] == s.guests[id] && s'.heard[id] == s.heard[id]
  {
  }

  /** take_chat returns the heard line at NextTaken, and that position only moves forward, strictly past a
      line once taken: the queue may drop lines but never repeats or reorders them. */
  lemma TakenInOrder(s: System, e: Event, id: u32)
    requires Shape(s.host) && id in s.guests && id in s.heard && Tail(s.guests[id].chat, s.heard[id])
    ensures var s' := Turn(s, e);
            && id in s'.guests && id in s'.heard && s.heard[id] <= s'.heard[id]
            && 0 <= NextTaken(s, id) <= NextTaken(s', id)
            && (s.guests[id].chat != [] ==> s.guests[id].chat[0] == s.heard[id][NextTaken(s, id)].line)
            && (e == AtGuest(id, TakeLine) && Enabled(s, e) && s.guests[id].chat != []
                ==> NextTaken(s', id) == NextTaken(s, id) + 1)
  {
    if Enabled(s, e) && e.AtGuest? && e.id == id {
      GuestSteps(s.guests[id], e.ge);
      GuestTakes(s, id, e.ge, GuestStep(s.guests[id], e.ge));
    } else {
      OthersUntouched(s, e, id);
    }
  }

  /** Over a whole run: lines taken at two moments stand in the order they were heard. */
  lemma {:induction false} TakenInOrderOverRun(h: Host, es: seq<Event>, i: nat, j: nat, id: u32)
    requires Shape(h) && Opened(h) && i <= j <= |es| && Live(At(h, es, j).host)
    requires id in At(h, es, i).guests && id in At(h, es, i).heard
    ensures id in At(h, es, j).guests && id in At(h, es, j).heard
    ensures At(h, es, i).heard[id] <= At(h, es, j).heard[id]
    ensures NextTaken(At(h, es, i), id) <= NextTaken(At(h, es, j), id)
    ensures i < j && es[i] == AtGuest(id, TakeLine) && Enabled(At(h, es, i), es[i])
            && At(h, es, i).guests[id].chat != []
            ==> NextTaken(At(h, es, i), id) < NextTaken(At(h, es, j), id)
    decreases j - i
  {
    hide Turn, Execute, NextTaken;
    if i < j {
      NextState(h, es, i);
      LiveEarlier(h, es, i, j);
      QueueIsTail(h, es[..i], id);
      TakenInOrder(At(h, es, i), es[i], id);
      TakenInOrderOverRun(h, es, i + 1, j, id);
    }
  }
}
