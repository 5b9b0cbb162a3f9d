/** The end of the revision counter: it can be reached, and there one number names two rosters. */
module LanRoomOverflow {
  import opened Common
  import opened LanRoom
  import opened LanRoomHost
  import opened LanRoomEvolution
  import opened LanRoomProtocol
  import opened LanRoomTheorems
  import opened LanRoomProgress

  /** The host changes its own vote n times. */
  function OwnVotes(n: nat): (es: seq<Event>)
    ensures |es| == n
  {
    if n == 0 then [] else OwnVotes(n - 1) + [AtHost(SetReady(n % 2 == 1))]
  }

  /** The opened host after n changes of its own vote. */
  function Voted(h: Host, n: nat): Host
    requires Shape(h) && n < U32_MAX
  {
    h.(room := h.room.(revision := n + 1, ready := if n % 2 == 1 then {h.room.hostSlot as nat} else {}))
  }

  /** What host_open leaves: the host alone, at revision 1, with nobody ready. */
  lemma OpenedFacts(h: Host)
    requires Opened(h)
    ensures Shape(h) && HostOk(h) && h.room.revision == 1 && h.room.ready == {} && h.room.starting == 0
    ensures !h.wantStart && h.status >= 0 && SlotOf(h.room, h.id) == h.room.hostSlot
    ensures forall i :: 0 <= i < SEATS ==>
              h.links[i] == NO_LINK && (h.room.members[i].id == 0 <==> i != h.room.hostSlot)
    ensures forall k :: 0 <= k < RETIRED_MAX ==> h.retired[k].id == 0
  {
    var id, config, password :| HostOpen(id, config, password) == Some(h);
    OpenOk(id, config, password);
  }

  lemma VoteStep(h: Host, n: nat)
    requires Opened(h) && Shape(h) && n + 1 < U32_MAX
    ensures Shape(Voted(h, n)) && HostStep(Voted(h, n), SetReady((n + 1) % 2 == 1)) == HostOut(Voted(h, n + 1), [])
  {
    OpenedFacts(h);
    var v := Voted(h, n);
    assert Seats(v.room) == Seats(h.room);
    assert SlotOf(v.room, v.id) == h.room.hostSlot;
    hide HostOk, SlotOf, Opened;
  }

  /** Every revision below the last can be reached by every opened host, by its own votes alone. */
  lemma {:induction false} VotesReach(h: Host, n: nat)
    requires Opened(h) && Shape(h) && n < U32_MAX
    ensures var s := Execute(h, OwnVotes(n));
      s.host == Voted(h, n) && s.guests == map[] && s.up == {} && s.heard == map[]
  {
    hide SlotOf, Opened, HostStep, Turn, Voted;
    if n == 0 {
      NoVotes(h);
    } else {
      VotesReach(h, n - 1);
      VoteStep(h, n - 1);
      var e := SetReady(n % 2 == 1);
      assert OwnVotes(n)[..n - 1] == OwnVotes(n - 1);
      assert Execute(h, OwnVotes(n)) == Turn(Execute(h, OwnVotes(n - 1)), AtHost(e));
      QuietTurn(Execute(h, OwnVotes(n - 1)), e, Voted(h, n));
    }
  }

  lemma NoVotes(h: Host)
    requires Opened(h) && Shape(h)
    ensures Voted(h, 0) == h && Execute(h, OwnVotes(0)) == Initial(h)
  {
    OpenedFacts(h);
    hide HostOk, SlotOf, Opened, Turn;
  }

  lemma QuietTurn(s: System, e: HostEvent, h': Host)
    requires Shape(s.host) && !e.Receive? && HostStep(s.host, e) == HostOut(h', [])
    ensures var t := Turn(s, AtHost(e)); t.host == h' && t.guests == s.guests && t.up == s.up && t.heard == s.heard
  {
    hide HostStep;
  }

  /** A game and version a guest can be opened with. */
  predicate Playable(h: Host)
  {
    && 0 < |h.room.game| < 64 && Printable(h.room.game) && 0 < |h.room.version| < 32 && Printable(h.room.version)
    && |h.password| < 64 && Printable(h.password)
  }

  function Newcomer(h: Host): u32 { if h.id == 1 then 2 else 1 }

  const JOINER: Text := [66]

  function Coming(h: Host): Event
  {
    Opens(Newcomer(h), 1, h.room.game, h.room.version, h.password, JOINER, 4)
  }

  function Joining(h: Host): Up
  {
    Up(1, 0, Newcomer(h), 0, 0, Join(h.room.game, h.room.version, h.password, JOINER, 4))
  }

  lemma NewcomerOpens(h: Host)
    requires Playable(h)
    ensures var g := GuestOpen(Newcomer(h), 1, h.room.game, h.room.version, h.password, JOINER, 4);
      g.Some? && GuestStep(g.value, Repeat) == GuestOut(g.value, [Joining(h)]) && g.value.open
  {
    assert Printable(JOINER);
    hide Printable;
  }

  lemma Comes(s: System, h: Host)
    requires Playable(h) && s.guests == map[] && s.heard == map[] && Shape(s.host) && s.host.id == h.id
    ensures var t := Turn(s, Coming(h));
      var u := Turn(t, AtGuest(Newcomer(h), Repeat));
      u.host == s.host && Joining(h) in u.up
  {
    NewcomerOpens(h);
    hide GuestOpen, GuestStep, Playable;
  }

  lemma JoinAdmitted(h: Host, n: nat)
    requires Opened(h) && Shape(h) && n < U32_MAX
    ensures Shape(Voted(h, n)) && !Rejoins(Voted(h, n), Joining(h)) && JoinStatus(Voted(h, n), Joining(h)) == OK
    ensures SlotOf(Voted(h, n).room, 0) >= 0
  {
    OpenedFacts(h);
    var v := Voted(h, n);
    assert Seats(v.room) == Seats(h.room);
    assert SlotOf(v.room, Newcomer(h)) < 0;
    var free := if h.room.hostSlot == 0 then 1 else 0;
    assert v.room.members[free].id == 0;
    assert SlotOf(v.room, 0) >= 0;
    hide HostOk, SlotOf, Opened;
  }

  /** With the counter full, an admitted JOIN publishes a second roster under the same number. */
  lemma FullCounterReusesRevision(h: Host, u: Up)
    requires Shape(h) && h.room.revision == U32_MAX && u.body.Join? && u.id != 0 && u.body.name != []
    requires !Rejoins(h, u) && JoinStatus(h, u) == OK
    ensures var o := HostJoin(h, u);
      && |o.sent| == 1 && o.sent[0].body.Roster? && o.sent[0].revision == h.room.revision
      && o.sent[0].body.room == o.host.room != h.room && o.host.room.revision == h.room.revision
      && o.host.status == CLOSED
  {
    var slot := SlotOf(h.room, 0);
    assert HostJoin(h, u).host.room.members[slot].id == u.id != h.room.members[slot].id;
  }

  /** How many votes fill the revision counter. */
  const LAST := U32_MAX - 1

  /**
   * Every opened host that a guest could join has a run with two moments at which its revision is the same and its
   * roster is not: the condition of SnapshotConsistency cannot be dropped.
   */
  lemma SnapshotBreaks(h: Host) returns (es: seq<Event>, i: nat)
    requires Opened(h) && Shape(h) && Playable(h)
    ensures i + 1 == |es|
    ensures At(h, es, i).host.room.revision == At(h, es, i + 1).host.room.revision == U32_MAX
    ensures At(h, es, i).host.room != At(h, es, i + 1).host.room
    ensures Live(At(h, es, i).host) && !Live(At(h, es, i + 1).host)
  {
    hide Turn, Execute, Opened, Playable, HostJoin, JoinStatus, Rejoins, OwnVotes, Resume;
    VotesReach(h, LAST);
    var s := Execute(h, OwnVotes(LAST));
    Comes(s, h);
    JoinAdmitted(h, LAST);
    OpenedFacts(h);
    hide HostOk;
    FullCounterReusesRevision(s.host, Joining(h));
    var come, ask := Coming(h), AtGuest(Newcomer(h), Repeat);
    var admit := AtHost(Receive(Joining(h), false));
    var before := OwnVotes(LAST) + [come, ask];
    es := before + [admit];
    i := |before|;
    assert es[..i] == before && es[..i + 1] == es;
    TwoTurns(s, come, ask);
    ExecuteResumes(h, OwnVotes(LAST), [come, ask]);
    NextState(h, es, i);
    Admits(At(h, es, i), Joining(h));
  }

  lemma Admits(s: System, u: Up)
    requires Shape(s.host) && u in s.up && u.body.Join?
    ensures Turn(s, AtHost(Receive(u, false))).host == HostJoin(s.host, u).host
  {
    hide HostJoin;
  }
}
