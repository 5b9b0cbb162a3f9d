/** What a chat line says: who spoke it, under which name, and to whom it goes. */
module LanRoomChat {
  import opened Common
  import opened LanRoom
  import opened LanRoomHost
  import opened LanRoomEvolution
  import opened LanRoomProtocol
  import opened LanRoomTheorems
  import LanRoomAdmission
  import LanRoomGuest

  /** The id is seated under this name. */
  ghost predicate Named(r: Room, id: u32, name: Text)
  {
    exists i :: 0 <= i < |Seats(r)| && r.members[i] == Member(id, name)
  }

  /** The event speaks this line: the host's own call, or a chat request of a seated guest. Player, name and text are
      the speaker's id, the name of its seat, and what was said. */
  ghost predicate Utters(h: Host, e: HostEvent, line: ChatLine)
    requires Shape(h)
  {
    && Named(h.room, line.player, line.from)
    && ((e.Say? && line.player == h.id && line.text == e.text)
        || (e.Receive? && e.u.body.ChatRequest? && Owns(h, e.u) && line.player == e.u.id
            && line.text == e.u.body.text))
  }

  // ---- one step -----------------------------------------------------------

  lemma BroadcastLine(h: Host, sender: nat, text: Text)
    requires Shape(h) && sender < h.room.maxSlots && h.chatSequence < U32_MAX
    ensures var h' := Broadcast(h, sender, text).host;
            && h'.chatSequence == h.chatSequence + 1 && h'.chat != []
            && var line := h'.chat[|h'.chat| - 1];
               line.player == h.room.members[sender].id && line.text == text
               && Named(h.room, line.player, line.from) && line.from == h.room.members[sender].name
  {
    assert h.room.members[sender] == Member(h.room.members[sender].id, h.room.members[sender].name);
  }

  /** The host numbers a line exactly when its own call is in order, or a seated guest's request is new and not
      empty; the last number is never passed. */
  lemma NumberedIff(h: Host, e: HostEvent)
    requires HostOk(h) && (e.Receive? ==> e.u.source != 0)
    ensures HostStep(h, e).host.chatSequence != h.chatSequence
            <==> h.chatSequence < U32_MAX
                 && (|| (e.Say? && h.status >= 0 && 0 < |e.text| < 256 && Printable(e.text))
                     || (e.Receive? && e.u.body.ChatRequest? && e.u.body.text != [] && Owns(h, e.u)
                         && e.u.sequence > LinkOf(h, e.u.id).chatSequence))
  {
    OkShape(h);
    if e.Receive? {
      RequestNumberedIff(h, e.u, e.due);
    } else if e.Say? {
      HostSeated(h);
      hide HostOk, SlotOf, Printable, Echoes;
    } else {
      hide HostOk, SlotOf, AllReady, AllAcked, LaunchReady, ValidRoom, States, Closes, Printable;
    }
  }

  lemma HostSeated(h: Host)
    requires HostOk(h)
    ensures SlotOf(h.room, h.id) == h.room.hostSlot
  {
  }

  lemma RequestNumberedIff(h: Host, u: Up, due: bool)
    requires HostOk(h) && u.source != 0
    ensures HostReceive(h, u, due).host.chatSequence != h.chatSequence
            <==> h.chatSequence < U32_MAX && u.body.ChatRequest? && u.body.text != [] && Owns(h, u)
                 && u.sequence > LinkOf(h, u.id).chatSequence
  {
    OkShape(h);
    if u.body.ChatRequest? {
      RequestReceived(h, u, due);
      if Owns(h, u) { OwnedLink(h, u); }
      hide HostOk, HostReceive, SlotOf, LinkIn, Owns, Echoes;
    } else {
      hide HostOk, LinkIn, Owns;
      SilentOtherwise(h, u, due);
    }
  }

  /** A chat request is a matter of the sender's seat, or of nobody. */
  lemma RequestReceived(h: Host, u: Up, due: bool)
    requires Shape(h) && u.body.ChatRequest?
    ensures Owns(h, u) ==> HostReceive(h, u, due) == HostChat(h, SlotOf(h.room, u.id), u)
    ensures !Owns(h, u) ==> HostReceive(h, u, due).host == h
  {
    hide SlotOf, RetiredFrom, HostChat;
  }

  lemma SilentOtherwise(h: Host, u: Up, due: bool)
    requires Shape(h) && !u.body.ChatRequest?
    ensures HostReceive(h, u, due).host.chatSequence == h.chatSequence
  {
    hide SlotOf, RetiredFrom, MoveMember, IsRetired, AddressTaken, HostOp;
    if u.body.Op? && Owns(h, u) { OpChat(h, SlotOf(h.room, u.id), u); }
  }

  /** The link the host looks at is the link of the packet's sender. */
  lemma OwnedLink(h: Host, u: Up)
    requires HostOk(h) && u.source != 0 && Owns(h, u)
    ensures var slot := SlotOf(h.room, u.id);
            0 <= slot < SEATS && slot < h.room.maxSlots && h.links[slot].id == u.id && LinkOf(h, u.id) == h.links[slot]
  {
    var slot := SlotOf(h.room, u.id);
    assert h.links[slot].id == u.id != 0;
    DistinctLinks(h);
    LinkAt(h.links, slot);
  }

  /** A newly numbered line is what its speaker said, under the name of its seat. */
  lemma StepUtters(h: Host, e: HostEvent)
    requires HostOk(h) && (e.Receive? ==> e.u.source != 0) && HostStep(h, e).host.chatSequence != h.chatSequence
    ensures var h' := HostStep(h, e).host;
            && h'.chatSequence == h.chatSequence + 1 && h'.chat != []
            && Utters(h, e, h'.chat[|h'.chat| - 1])
  {
    OkShape(h);
    NumberedIff(h, e);
    if e.Say? {
      HostSeated(h);
      BroadcastLine(h, h.room.hostSlot, e.text);
      SaidByHost(h);
      hide HostOk, SlotOf, Printable, Broadcast, Named;
    } else {
      RequestUtters(h, e.u, e.due);
    }
  }

  lemma SaidByHost(h: Host)
    requires HostOk(h)
    ensures h.room.members[h.room.hostSlot].id == h.id
  {
  }

  lemma RequestUtters(h: Host, u: Up, due: bool)
    requires HostOk(h) && u.source != 0 && u.body.ChatRequest? && u.body.text != [] && Owns(h, u)
    requires u.sequence > LinkOf(h, u.id).chatSequence && h.chatSequence < U32_MAX
    ensures var h' := HostReceive(h, u, due).host;
            && h'.chatSequence == h.chatSequence + 1 && h'.chat != []
            && Utters(h, Receive(u, due), h'.chat[|h'.chat| - 1])
  {
    OkShape(h);
    OwnedLink(h, u);
    var slot := SlotOf(h.room, u.id);
    var h1 := h.(links := h.links[slot := h.links[slot].(chatSequence := u.sequence)]);
    BroadcastLine(h1, slot, u.body.text);
    RequestReceived(h, u, due);
    hide HostOk, SlotOf, HostReceive, Broadcast, LinkIn, Named;
  }

  // ---- to whom it goes ----------------------------------------------------

  /** The echo of the host's last line for the guest in seat `i`. */
  function EchoFor(h: Host, i: nat): Down
    requires Shape(h) && i < SEATS && h.chat != []
  {
    Down(h.links[i].addr, h.room.epoch, h.links[i].id, h.chatSequence, h.room.revision,
         ChatEcho(h.chat[|h.chat| - 1]))
  }

  lemma {:induction false} EchoesIff(h: Host, n: nat, d: Down)
    requires Shape(h) && n <= SEATS && h.chat != []
    ensures d in Echoes(h, h.chat[|h.chat| - 1], n)
            <==> exists i :: 0 <= i < n && h.links[i].id != 0 && d == EchoFor(h, i)
  {
    if n > 0 {
      EchoesIff(h, n - 1, d);
      if h.links[n - 1].id != 0 && d == EchoFor(h, n - 1) {
        assert d in Echoes(h, h.chat[|h.chat| - 1], n);
      }
    }
  }

  lemma BroadcastIff(h: Host, sender: nat, text: Text, d: Down)
    requires Shape(h) && sender < SEATS && h.chatSequence < U32_MAX
    ensures var o := Broadcast(h, sender, text);
            && o.host.chat != [] && o.host.links == h.links && o.host.room == h.room
            && (d in o.sent <==> exists i :: 0 <= i < h.room.maxSlots && h.links[i].id != 0 && d == EchoFor(o.host, i))
  {
    var o := Broadcast(h, sender, text);
    EchoesIff(o.host, h.room.maxSlots, d);
  }

  /** A newly numbered line goes out to exactly the seated guests, each at its own address. */
  lemma EchoedToAll(h: Host, e: HostEvent, d: Down)
    requires HostOk(h) && (e.Receive? ==> e.u.source != 0) && HostStep(h, e).host.chatSequence != h.chatSequence
    ensures var o := HostStep(h, e);
            && Shape(o.host) && o.host.chat != []
            && (d in o.sent <==>
                  exists i :: 0 <= i < o.host.room.maxSlots && o.host.links[i].id != 0 && d == EchoFor(o.host, i))
  {
    OkShape(h);
    NumberedIff(h, e);
    if e.Say? {
      HostSeated(h);
      BroadcastIff(h, h.room.hostSlot, e.text, d);
      hide HostOk, SlotOf, Printable, Broadcast, EchoFor;
    } else {
      OwnedLink(h, e.u);
      var slot := SlotOf(h.room, e.u.id);
      var h1 := h.(links := h.links[slot := h.links[slot].(chatSequence := e.u.sequence)]);
      BroadcastIff(h1, slot, e.u.body.text, d);
      RequestReceived(h, e.u, e.due);
      hide HostOk, SlotOf, HostReceive, Broadcast, LinkIn, EchoFor;
    }
  }

  /** A guest accepts an echo exactly when it is joined, the echo is for it and its room, and it is newer than all it
      has seen; the line is then the newest in its queue. */
  lemma AcceptsIff(g: Guest, d: Down)
    requires d.body.ChatEcho? && d.body.line.player != 0 && d.body.line.text != []
    ensures var g' := GuestReceive(g, d).guest;
            && GuestReceive(g, d).sent == []
            && (g'.chatSeen != g.chatSeen <==>
                  g.joined && d.id == g.id && d.epoch == g.room.epoch && d.sequence > g.chatSeen)
            && (g'.chatSeen != g.chatSeen ==>
                  && g'.chatSeen == d.sequence && g'.chat != [] && g'.chat[|g'.chat| - 1] == d.body.line
                  && |g'.chat| == (if |g.chat| < CHAT_QUEUE then |g.chat| + 1 else CHAT_QUEUE)
                  && forall i :: 0 <= i < |g'.chat| - 1 ==> g'.chat[i] == g.chat[|g.chat| - (|g'.chat| - 1) + i])
            && (g'.chatSeen == g.chatSeen ==> g' == g)
  {
  }

  // ---- whole runs ---------------------------------------------------------

  /** The log grows by one line at a time, and that line was just uttered. */
  lemma TurnLog(s: System, e: Event)
    requires Inv(s)
    ensures var s' := Turn(s, e);
            || s'.log == s.log
            || (Enabled(s, e) && e.AtHost? && |s'.log| == |s.log| + 1 && s'.log[..|s.log|] == s.log
                && Utters(s.host, e.he, s'.log[|s.log|]))
  {
    hide HostStep, GuestStep, GuestOpen, Protocol, Utters;
    if Enabled(s, e) && e.AtHost? && HostStep(s.host, e.he).host.chatSequence != s.host.chatSequence {
      StepUtters(s.host, e.he);
    }
  }

  /** Every line of the host's log was uttered at some event of the run. */
  lemma {:induction false} LogWasUttered(h: Host, es: seq<Event>, n: nat) returns (k: nat)
    requires Shape(h) && Opened(h) && n < |Execute(h, es).log|
    ensures k < |es| && es[k].AtHost? && Enabled(At(h, es, k), es[k]) && |At(h, es, k).log| == n
    ensures Utters(At(h, es, k).host, es[k].he, Execute(h, es).log[n])
  {
    hide Turn, Execute, Inv, Utters, Opened;
    if es == [] {
      ExecuteNone(h);
    } else {
      var front := es[..|es| - 1];
      RunInv(h, front);
      LastTurn(h, es);
      TurnLog(Execute(h, front), es[|es| - 1]);
      if n < |Execute(h, front).log| {
        assert Execute(h, es).log[n] == Execute(h, front).log[n];
        k := LogWasUttered(h, front, n);
        assert front[..k] == es[..k];
      } else {
        k := |es| - 1;
      }
    }
  }

  lemma SpeechIs(g: Guest, e: GuestEvent, u: Up)
    requires u in GuestStep(g, e).sent && u.body.ChatRequest?
    ensures e == Speak(u.body.text) && g.joined
  {
    hide ValidRoom, SlotOf, Printable, Queued;
  }

  /** Every chat request on the network was spoken, in those words, by the guest it names. */
  lemma {:induction false} RequestWasSpoken(h: Host, es: seq<Event>, u: Up) returns (k: nat)
    requires Shape(h) && Opened(h) && u in Execute(h, es).up && u.body.ChatRequest?
    ensures k < |es| && es[k] == AtGuest(u.id, Speak(u.body.text)) && Enabled(At(h, es, k), es[k])
  {
    hide Turn, Execute, Inv, Opened;
    if es == [] {
      ExecuteNone(h);
    } else {
      var front := es[..|es| - 1];
      RunInv(h, es);
      RunInv(h, front);
      LastTurn(h, es);
      if u in Execute(h, front).up {
        k := RequestWasSpoken(h, front, u);
        assert front[..k] == es[..k];
      } else {
        k := |es| - 1;
        TurnSpeech(Execute(h, front), es[k], u);
      }
    }
  }

  lemma TurnSpeech(s: System, e: Event, u: Up)
    requires Inv(s) && u in Turn(s, e).up && u !in s.up && u.body.ChatRequest?
    ensures e == AtGuest(u.id, Speak(u.body.text)) && Enabled(s, e)
  {
    hide HostStep, GuestStep, GuestOpen, Protocol, HostOk;
    if Enabled(s, e) && e.AtGuest? {
      SpeechIs(s.guests[e.id], e.ge, u);
      LanRoomGuest.GuestSent(s.guests[e.id], e.ge, u);
    }
  }

  /**
   * Every line a guest ever accepts was said: by the host in its own call, or by the guest whose id it carries, in
   * those words and before the host numbered it. Its name is that of the speaker's seat at that moment.
   */
  lemma LineWasSpoken(h: Host, es: seq<Event>, id: u32, n: nat) returns (numbered: nat, spoken: nat)
    requires Shape(h) && Opened(h)
    requires var s := Execute(h, es); Live(s.host) && id in s.guests && id in s.heard && n < |s.heard[id]|
    ensures var heard := Execute(h, es).heard[id][n];
            && spoken <= numbered < |es| && |At(h, es, numbered).log| == heard.number - 1
            && Named(At(h, es, numbered).host.room, heard.line.player, heard.line.from)
            && (|| (spoken == numbered && heard.line.player == h.id && es[spoken] == AtHost(Say(heard.line.text)))
                || (spoken < numbered && es[spoken] == AtGuest(heard.line.player, Speak(heard.line.text))
                    && Enabled(At(h, es, spoken), es[spoken])))
  {
    hide Turn, Execute, Opened, Named;
    RunInv(h, es);
    var s := Execute(h, es);
    var heard := s.heard[id][n];
    HeardInLog(s, id, n);
    numbered := LogWasUttered(h, es, heard.number - 1);
    var past := es[..numbered];
    LanRoomAdmission.ConstantsKept(h, past);
    var e := es[numbered].he;
    if e.Say? {
      spoken := numbered;
    } else {
      spoken := RequestWasSpoken(h, past, e.u);
      assert past[..spoken] == es[..spoken];
    }
  }

  lemma HeardInLog(s: System, id: u32, n: nat)
    requires Inv(s) && Live(s.host) && id in s.guests && id in s.heard && n < |s.heard[id]|
    ensures 1 <= s.heard[id][n].number <= |s.log| && s.log[s.heard[id][n].number - 1] == s.heard[id][n].line
  {
    assert GuestOk(s, id);
  }
}
