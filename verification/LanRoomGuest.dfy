/** How one guest step may change what the guest holds, and what it sends. */
module LanRoomGuest {
  import opened Common
  import opened LanRoom

  ghost predicate GuestGrows(g: Guest, g': Guest)
  {
    && g'.id == g.id && g'.addr == g.addr && g.sequence <= g'.sequence && g.chatSeen <= g'.chatSeen
    && (g.joined ==> g'.joined && g.room.revision <= g'.room.revision)
  }

  /** A guest keeps its roster or takes the announced one, and never goes back to an older revision. */
  ghost predicate RoomStep(g: Guest, g': Guest, e: GuestEvent)
  {
    && GuestGrows(g, g')
    && ((g'.room == g.room && g'.joined == g.joined)
        || (e.Hear? && IsState(e.d) && g'.joined && g'.room == Announced(e.d)))
  }

  /** A guest queues at most one line per step, the echoed one, and takes lines from the front. */
  ghost predicate LineStep(g: Guest, g': Guest, e: GuestEvent)
  {
    || (g'.chat == g.chat && g'.chatSeen == g.chatSeen)
    || (g'.chat == TakeChat(g.chat) && g'.chatSeen == g.chatSeen && e.TakeLine?)
    || (e.Hear? && e.d.body.ChatEcho? && g.chatSeen < e.d.sequence && g'.chatSeen == e.d.sequence
        && g'.chat == Queued(g.chat, e.d.body.line))
  }

  lemma StateSteps(g: Guest, d: Down)
    requires IsState(d)
    ensures RoomStep(g, GuestState(g, d).guest, Hear(d)) && LineStep(g, GuestState(g, d).guest, Hear(d))
  {
    hide ValidRoom, SlotOf;
  }

  lemma ReceiveSteps(g: Guest, d: Down)
    ensures RoomStep(g, GuestReceive(g, d).guest, Hear(d)) && LineStep(g, GuestReceive(g, d).guest, Hear(d))
  {
    if IsState(d) { StateSteps(g, d); }
  }

  lemma GuestSteps(g: Guest, e: GuestEvent)
    ensures RoomStep(g, GuestStep(g, e).guest, e) && LineStep(g, GuestStep(g, e).guest, e)
  {
    if e.Hear? { ReceiveSteps(g, e.d); }
  }

  /** A request pending after the step was pending before it, or is the one the step made. */
  ghost predicate PendingKept(g: Guest, g': Guest, e: GuestEvent)
  {
    || g'.pending == None
    || (g'.pending == g.pending && g'.sequence == g.sequence)
    || (g'.sequence == g.sequence + 1 && g' != g
        && ((e.Vote?
             && g'.pending == Some(Pending(OP_READY, if e.ready then 1 else 0, g.room.configuration, g.room.revision)))
            || (e.Claim? && g'.pending.value.op == OP_MOVE)))
  }

  lemma GuestPending(g: Guest, e: GuestEvent)
    ensures PendingKept(g, GuestStep(g, e).guest, e)
  {
    hide ValidRoom, SlotOf, Printable, Acceptable, Contradicts;
    if e.Hear? && IsState(e.d) { StateSteps(g, e.d); }
  }

  /** What a guest says about itself is true of it. */
  ghost predicate UpSent(g: Guest, g': Guest, u: Up)
  {
    && u.id == g.id && u.source == g.addr
    && (u.body.Ack? || u.body.StartAck? ==> g'.joined && u.revision == g'.room.revision)
    && (u.body.StartAck? ==> g'.room.starting != 0)
    && (u.body.Op? ==> g' == g && u.sequence == g.sequence && g.pending.Some?
                       && u.body == Op(g.pending.value.op, g.pending.value.a, g.pending.value.b))
  }

  lemma GuestSent(g: Guest, e: GuestEvent, u: Up)
    requires u in GuestStep(g, e).sent
    ensures UpSent(g, GuestStep(g, e).guest, u)
  {
    if e.Hear? && IsState(e.d) { StateSteps(g, e.d); }
  }

  /** Only a seated guest's vote does anything. */
  lemma VoteNeedsSeat(g: Guest)
    ensures GuestStep(g, Vote(true)).guest != g ==> g.joined
  {
  }
}
