/** The objects and the transition system describe the same host: whatever a pump does is a run. */
module LanRoomRefinement {
  import opened Common
  import opened LanRoom
  import opened LanRoomProtocol
  import opened LanRoomPeer

  function AsRun(es: seq<HostEvent>): (r: seq<Event>)
    ensures |r| == |es|
  {
    seq(|es|, i requires 0 <= i < |es| => AtHost(es[i]))
  }

  /** What one host turn does to the parts of the system the object knows about. */
  lemma HostTurn(s: System, e: HostEvent)
    requires Shape(s.host) && (e.Receive? ==> e.u in s.up)
    ensures var s' := Turn(s, AtHost(e));
            var o := HostStep(s.host, e);
            && s'.host == o.host && s'.guests == s.guests && s'.heard == s.heard && s'.up == s.up
            && s'.down == s.down + (set d | d in o.sent)
  {
    hide HostStep;
  }

  lemma ExecuteAppend(h: Host, es: seq<Event>, e: Event)
    requires Shape(h)
    ensures Execute(h, es + [e]) == Turn(Execute(h, es), e)
  {
    hide Turn;
    assert (es + [e])[..|es|] == es;
  }

  /** Feeding a host's events to the system moves its host exactly as the object moves, puts on the network
      everything the object sent, and leaves the guests alone. */
  lemma {:induction false} PumpIsRun(h: Host, past: seq<Event>, es: seq<HostEvent>)
    requires Shape(h)
    requires forall e :: e in es && e.Receive? ==> e.u in Execute(h, past).up
    ensures var s := Execute(h, past);
            var s' := Execute(h, past + AsRun(es));
            var o := HostRun(s.host, es);
            && s'.host == o.host && s'.guests == s.guests && s'.heard == s.heard && s'.up == s.up
            && s'.down == s.down + (set d | d in o.sent)
  {
    hide HostStep, Turn, Execute;
    if es == [] {
      assert past + AsRun(es) == past;
    } else {
      var front, last := es[..|es| - 1], es[|es| - 1];
      assert forall e :: e in front ==> e in es;
      PumpIsRun(h, past, front);
      assert past + AsRun(es) == (past + AsRun(front)) + [AtHost(last)];
      ExecuteAppend(h, past + AsRun(front), AtHost(last));
      assert last in es;
      HostTurn(Execute(h, past + AsRun(front)), last);
    }
  }

  function AsGuestRun(id: u32, es: seq<GuestEvent>): (r: seq<Event>)
    ensures |r| == |es|
  {
    seq(|es|, i requires 0 <= i < |es| => AtGuest(id, es[i]))
  }

  /** What one guest turn does to the parts of the system the object knows about. */
  lemma GuestTurn(s: System, id: u32, e: GuestEvent)
    requires Shape(s.host) && Enabled(s, AtGuest(id, e))
    ensures var s' := Turn(s, AtGuest(id, e));
            var o := GuestStep(s.guests[id], e);
            && s'.host == s.host && s'.guests == s.guests[id := o.guest] && s'.down == s.down
            && s'.up == s.up + (set u | u in o.sent) && s'.heard.Keys == s.heard.Keys
  {
    hide GuestStep;
  }

  /** No event of a pump closes the guest or changes where it can be reached. */
  lemma PumpEventKeeps(g: Guest, e: GuestEvent)
    requires !e.Quit?
    ensures GuestStep(g, e).guest.open == g.open && GuestStep(g, e).guest.addr == g.addr
  {
    hide ValidRoom, SlotOf, Printable;
  }

  lemma {:induction false} RunKeeps(g: Guest, es: seq<GuestEvent>)
    requires forall e :: e in es ==> !e.Quit?
    ensures GuestRun(g, es).guest.open == g.open && GuestRun(g, es).guest.addr == g.addr
  {
    hide GuestStep;
    if es != [] {
      var front, last := es[..|es| - 1], es[|es| - 1];
      assert forall e :: e in front ==> e in es;
      RunKeeps(g, front);
      assert last in es;
      PumpEventKeeps(GuestRun(g, front).guest, last);
    }
  }

  /** The same for a guest: feeding its events to the system moves that guest exactly as the object moves, puts
      on the network everything it sent, and leaves the host and the other guests alone. */
  lemma {:induction false} GuestPumpIsRun(h: Host, past: seq<Event>, id: u32, es: seq<GuestEvent>)
    requires Shape(h)
    requires var s := Execute(h, past); id in s.guests && id in s.heard && s.guests[id].open
    requires forall e :: e in es ==> !e.Quit?
    requires forall e :: e in es && e.Hear? ==>
               e.d in Execute(h, past).down && e.d.dest == Execute(h, past).guests[id].addr
    ensures var s := Execute(h, past);
            var s' := Execute(h, past + AsGuestRun(id, es));
            var o := GuestRun(s.guests[id], es);
            && s'.host == s.host && s'.guests == s.guests[id := o.guest] && s'.down == s.down
            && s'.up == s.up + (set u | u in o.sent) && s'.heard.Keys == s.heard.Keys
  {
    hide GuestStep, Turn, Execute;
    if es == [] {
      assert past + AsGuestRun(id, es) == past;
    } else {
      var front, last := es[..|es| - 1], es[|es| - 1];
      assert forall e :: e in front ==> e in es;
      GuestPumpIsRun(h, past, id, front);
      RunKeeps(Execute(h, past).guests[id], front);
      assert past + AsGuestRun(id, es) == (past + AsGuestRun(id, front)) + [AtGuest(id, last)];
      ExecuteAppend(h, past + AsGuestRun(id, front), AtGuest(id, last));
      assert last in es;
      GuestTurn(Execute(h, past + AsGuestRun(id, front)), id, last);
    }
  }
}
