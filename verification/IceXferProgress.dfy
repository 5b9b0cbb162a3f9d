/** A transfer never gets stuck on a non-empty blob: exactly which queues can still be emptied. */
module IceXferProgress {
  import opened Common
  import opened IceXfer
  import opened IceXferProtocol
  import opened IceXferTheorems

  // ---- everything counted was sent ----------------------------------------

  /** The chunk of blob `id` at `off`, as it goes on the wire. */
  function Piece(x: End, id: u32, off: nat): Packet
    requires Known(x, id) && off <= |x.sent[Nth(id) - 1]|
  {
    Data(id, |x.sent[Nth(id) - 1]|, off, Chunk(x.sent[Nth(id) - 1], off))
  }

  /** Every chunk of blob `id` below byte n is on the wire. */
  ghost predicate Below(x: End, id: u32, n: nat)
  {
    && Known(x, id)
    && forall off: nat :: off < n && off < |x.sent[Nth(id) - 1]| && off % PAYLOAD == 0 ==> Piece(x, id, off) in x.out
  }

  lemma BelowGrows(x: End, x': End, id: u32, n: nat)
    requires Below(x, id, n) && x.sent <= x'.sent && x.out <= x'.out
    ensures Below(x', id, n)
  {
    assert x'.sent[Nth(id) - 1] == x.sent[Nth(id) - 1];
    forall off: nat | off < n && off < |x'.sent[Nth(id) - 1]| && off % PAYLOAD == 0
      ensures Piece(x', id, off) in x'.out {
      assert Piece(x, id, off) in x.out;
    }
  }

  /** What the sender counts as sent, what is acknowledged and what is assembled has all been on the wire. */
  ghost predicate Mailed(x: End, y: End)
  {
    && (x.peer.queue != [] ==> Below(x, x.peer.queue[0].id, x.peer.queue[0].nextOff))
    && (forall k :: k in y.out && k.Ack? ==> Below(x, k.ackId, k.got))
    && (y.peer.active ==> Below(x, y.peer.recvId, |y.peer.buf|))
  }

  /** The receiver's half of it survives whatever keeps the sender's past. */
  lemma MailedFrame(x: End, x': End, y: End)
    requires Mailed(x, y) && x.sent <= x'.sent && x.out <= x'.out
    requires x'.peer.queue != [] ==> Below(x', x'.peer.queue[0].id, x'.peer.queue[0].nextOff)
    ensures Mailed(x', y)
  {
    hide Below;
    forall k | k in y.out && k.Ack? ensures Below(x', k.ackId, k.got) { BelowGrows(x, x', k.ackId, k.got); }
    if y.peer.active { BelowGrows(x, x', y.peer.recvId, |y.peer.buf|); }
  }

  lemma {:induction false} FillSends(b: Blob, off: nat)
    requires Aligned(b.nextOff, |b.data|) && b.nextOff <= off < FillWindow(b).blob.nextOff
    requires off < |b.data| && off % PAYLOAD == 0
    ensures DataAt(b, off) in FillWindow(b).packets
    decreases |b.data| - b.nextOff
  {
    var step := Min(PAYLOAD, |b.data| - b.nextOff);
    var b' := b.(nextOff := b.nextOff + step);
    if off != b.nextOff {
      assert off >= b.nextOff + step;
      FillSends(b', off);
      assert DataAt(b', off) == DataAt(b, off);
    }
  }

  lemma HeadIs(x: End)
    requires QueueOk(x) && x.peer.queue != []
    ensures var b := x.peer.queue[0];
      Known(x, b.id) && Nth(b.id) == Retired(x) + 1 && b.data == x.sent[Nth(b.id) - 1] && WindowOk(b)
  {
  }

  lemma PumpSends(x: End, b: Blob, w: Blob, out: set<Packet>)
    requires Below(x, b.id, b.nextOff) && b.data == x.sent[Nth(b.id) - 1]
    requires w == b.(nextOff := w.nextOff) && w.nextOff <= b.nextOff && WindowOk(w)
    requires out == x.out + (set k | k in FillWindow(w).packets)
    ensures Below(x.(out := out), b.id, FillWindow(w).blob.nextOff)
  {
    hide FillWindow;
    var x' := x.(out := out);
    forall off: nat | off < FillWindow(w).blob.nextOff && off < |x'.sent[Nth(b.id) - 1]| && off % PAYLOAD == 0
      ensures Piece(x', b.id, off) in x'.out
    {
      if off < w.nextOff {
        assert Piece(x, b.id, off) in x.out;
      } else {
        FillSends(w, off);
        assert DataAt(w, off) == Piece(x', b.id, off);
      }
    }
  }

  lemma PumpMailed(x: End, y: End, elapsed: bool)
    requires QueueOk(x) && Mailed(x, y)
    ensures Mailed(EndStep(x, Pump(elapsed)), y)
  {
    var x' := EndStep(x, Pump(elapsed));
    hide FillWindow, Rewound, Chunk, Below;
    if x.peer.failed || x.peer.queue == [] || x.peer.queue[0].unacked >= |x.peer.queue[0].data| {
      assert x' == x;
    } else {
      HeadIs(x);
      var b := x.peer.queue[0];
      RewoundKeeps(b, elapsed);
      RewoundOk(b, elapsed);
      PumpSends(x, b, Rewound(b, elapsed), x'.out);
      BelowGrows(x.(out := x'.out), x', b.id, FillWindow(Rewound(b, elapsed)).blob.nextOff);
      MailedFrame(x, x', y);
    }
  }

  lemma AckMailed(x: End, y: End, k: Packet)
    requires DirOk(x, y) && Mailed(x, y) && k.Ack? && k in y.out
    ensures Mailed(EndStep(x, Hear(k)), y)
  {
    hide Below, DataOk;
    assert AckOk(x, y, k) && Below(x, k.ackId, k.got);
    var x' := EndStep(x, Hear(k));
    assert x'.sent == x.sent && x'.out == x.out;
    if x'.peer.queue != [] {
      var b := x'.peer.queue[0];
      if x.peer.queue[0].id == b.id {
        HeadIs(x);
        BelowGrows(x, x', b.id, x.peer.queue[0].nextOff);
        if k.ackId == b.id { BelowGrows(x, x', b.id, k.got); }
      } else {
        assert b == x.peer.queue[1];
        FreshBelow(x', b);
      }
    }
    MailedFrame(x, x', y);
  }

  lemma FreshBelow(x: End, b: Blob)
    requires Known(x, b.id) && b.nextOff == 0
    ensures Below(x, b.id, b.nextOff)
  {
  }

  lemma SenderMailed(x: End, y: End, e: EndEvent)
    requires DirOk(x, y) && Mailed(x, y) && (e.Hear? ==> e.k in y.out) && |EndStep(x, e).sent| <= IDS
    ensures Mailed(EndStep(x, e), y)
  {
    hide Below, Tick, HandleData, HandleAck, Completes, DataOk;
    var x' := EndStep(x, e);
    match e
    case Pump(elapsed) => PumpMailed(x, y, elapsed);
    case Hear(k) =>
      if k.Ack? { AckMailed(x, y, k); } else { OtherMailed(x, y, e); }
    case Queue(data) => QueueMailed(x, y, data);
    case Take => OtherMailed(x, y, e);
    case GiveUp => OtherMailed(x, y, e);
  }

  lemma QueueMailed(x: End, y: End, data: Bytes)
    requires DirOk(x, y) && Mailed(x, y) && |EndStep(x, Queue(data)).sent| <= IDS
    ensures Mailed(EndStep(x, Queue(data)), y)
  {
    hide Below, DataOk;
    var x' := EndStep(x, Queue(data));
    if x.peer.queue != [] {
      BelowGrows(x, x', x.peer.queue[0].id, x.peer.queue[0].nextOff);
    } else if x'.peer.queue != [] {
      FreshBelow(x', x'.peer.queue[0]);
    }
    MailedFrame(x, x', y);
  }

  lemma OtherMailed(x: End, y: End, e: EndEvent)
    requires Mailed(x, y) && (e.Take? || e.GiveUp? || (e.Hear? && !e.k.Ack?))
    ensures Mailed(EndStep(x, e), y)
  {
    hide Below, Completes;
    var x' := EndStep(x, e);
    assert x'.peer.queue == x.peer.queue;
    if x.peer.queue != [] { BelowGrows(x, x', x.peer.queue[0].id, x.peer.queue[0].nextOff); }
    MailedFrame(x, x', y);
  }

  // ---- the receiver -------------------------------------------------------

  /** One more chunk on top of a mailed prefix. */
  lemma BelowNext(x: End, id: u32, n: nat)
    requires Below(x, id, n) && n < |x.sent[Nth(id) - 1]| && n % PAYLOAD == 0 && Piece(x, id, n) in x.out
    ensures Below(x, id, n + |Chunk(x.sent[Nth(id) - 1], n)|)
  {
  }

  lemma ChunkMailed(x: End, p: Peer, k: Packet)
    requires k.Data? && k in x.out && DataOk(x, k) && AssemblyOk(x, p) && k.total <= TOTAL_MAX
    requires p.active ==> Below(x, p.recvId, |p.buf|)
    ensures var o := HandleData(p, k.id, k.total, k.off, k.payload);
      && (o.peer.active ==> Below(x, o.peer.recvId, |o.peer.buf|))
      && (forall a :: a in o.sent && a.Ack? ==> Below(x, a.ackId, a.got))
  {
    hide Chunk;
    var q := Reopened(p, k.id, k.total);
    assert q.active && q.recvId == k.id && Below(x, k.id, |q.buf|);
    assert k == Piece(x, k.id, k.off);
    if k.off == |q.buf| { BelowNext(x, k.id, k.off); }
  }

  lemma HearMailed(x: End, y: End, k: Packet)
    requires DirOk(x, y) && Mailed(x, y) && k in x.out
    ensures Mailed(x, EndStep(y, Hear(k)))
  {
    hide Below, HandleData, Completes, QueueOk, Genuine, HandleAck;
    if k.Data? && k.total <= TOTAL_MAX {
      assert DataOk(x, k);
      ChunkMailed(x, y.peer, k);
    } else if k.Data? {
      TooLong(y.peer, k);
    } else if k.Ack? {
      AckReceives(y.peer, k);
    }
  }

  lemma TooLong(p: Peer, k: Packet)
    requires k.Data? && k.total > TOTAL_MAX
    ensures HandleData(p, k.id, k.total, k.off, k.payload) == Out(p.(failed := true), [])
  {
  }

  lemma AckReceives(p: Peer, k: Packet)
    requires k.Ack?
    ensures HandleAck(p, k.ackId, k.got) == p.(queue := HandleAck(p, k.ackId, k.got).queue)
  {
  }

  lemma ReceiverMailed(x: End, y: End, e: EndEvent)
    requires DirOk(x, y) && Mailed(x, y) && (e.Hear? ==> e.k in x.out)
    ensures Mailed(x, EndStep(y, e))
  {
    hide Below, Tick;
    match e
    case Hear(k) => HearMailed(x, y, k);
    case Pump(elapsed) => PumpQuiet(y.peer, elapsed);
    case Queue(_) =>
    case Take =>
    case GiveUp =>
  }

  lemma PumpQuiet(p: Peer, elapsed: bool)
    ensures Tick(p, elapsed).peer == p.(queue := Tick(p, elapsed).peer.queue)
    ensures forall k :: k in Tick(p, elapsed).sent ==> k.Data?
  {
    hide FillWindow, Rewound;
    if p.queue != [] { FillWindowSendsData(Rewound(p.queue[0], elapsed)); }
  }

  lemma TurnMailed(s: Pair, ev: Event)
    requires Inv(s) && Mailed(s.l, s.r) && |Turn(s, ev).l.sent| <= IDS
    ensures Mailed(Turn(s, ev).l, Turn(s, ev).r)
  {
    hide EndStep, Below;
    EndKeepsSent(s.l, ev.e);
    if Turn(s, ev) != s {
      if ev.AtLeft? { SenderMailed(s.l, s.r, ev.e); } else { ReceiverMailed(s.l, s.r, ev.e); }
    }
  }

  /** The left sender's part of it holds in every run. */
  lemma {:induction false} RunMailed(es: seq<Event>)
    requires |Execute(es).l.sent| <= IDS
    ensures Mailed(Execute(es).l, Execute(es).r)
  {
    hide Turn, Below;
    if es != [] {
      SentGrows(es, |es| - 1);
      RunMailed(es[..|es| - 1]);
      RunInv(es[..|es| - 1]);
      TurnMailed(Execute(es[..|es| - 1]), es[|es| - 1]);
    }
  }

  // ---- going on from a state ----------------------------------------------

  ghost function Resume(s: Pair, es: seq<Event>): Pair
  {
    if es == [] then s else Turn(Resume(s, es[..|es| - 1]), es[|es| - 1])
  }

  lemma {:induction false} ExecuteResumes(es: seq<Event>, more: seq<Event>)
    ensures Execute(es + more) == Resume(Execute(es), more)
  {
    hide Turn;
    if more == [] {
      assert es + more == es;
    } else {
      var n := |more| - 1;
      ExecuteResumes(es, more[..n]);
      assert (es + more)[..|es| + n] == es + more[..n];
    }
  }

  lemma {:induction false} ResumeConcat(s: Pair, es: seq<Event>, more: seq<Event>)
    ensures Resume(s, es + more) == Resume(Resume(s, es), more)
  {
    hide Turn;
    if more == [] {
      assert es + more == es;
    } else {
      var n := |more| - 1;
      ResumeConcat(s, es, more[..n]);
      assert (es + more)[..|es| + n] == es + more[..n];
    }
  }

  lemma ResumeThree(s: Pair, a: Event, b: Event, c: Event)
    ensures Resume(s, [a]) == Turn(s, a)
    ensures Resume(s, [a, b]) == Turn(Turn(s, a), b)
    ensures Resume(s, [a, b, c]) == Turn(Turn(Turn(s, a), b), c)
  {
    hide Turn;
    assert [a][..0] == [] && [a, b][..1] == [a] && [a, b, c][..2] == [a, b];
    assert Resume(s, []) == s;
  }

  /** Neither end has failed, and every blob is of a length the receiver admits. */
  ghost predicate Going(s: Pair)
  {
    && Inv(s) && Mailed(s.l, s.r) && |s.l.sent| <= IDS && !s.l.peer.failed && !s.r.peer.failed
    && forall i :: 0 <= i < |s.l.sent| ==> |s.l.sent[i]| <= TOTAL_MAX
  }

  lemma GoingOn(s: Pair, ev: Event)
    requires Going(s) && Turn(s, ev).l.sent == s.l.sent
    requires !Turn(s, ev).l.peer.failed && !Turn(s, ev).r.peer.failed
    ensures Going(Turn(s, ev))
  {
    hide Turn, Inv, Mailed;
    TurnInv(s, ev);
    TurnMailed(s, ev);
  }

  lemma GoingHead(s: Pair)
    requires Going(s) && s.l.peer.queue != []
    ensures var b := s.l.peer.queue[0];
      && Known(s.l, b.id) && b.data == s.l.sent[Nth(b.id) - 1] && WindowOk(b) && |b.data| <= TOTAL_MAX
      && Below(s.l, b.id, b.nextOff) && AssemblyOk(s.l, s.r.peer) && Nth(b.id) == Retired(s.l) + 1
  {
    hide Below, DataOk, AckOk;
    HeadIs(s.l);
  }

  // ---- one exchange -------------------------------------------------------

  function Position(p: Peer, id: u32): nat
  {
    if p.active && p.recvId == id then |p.buf| else 0
  }

  /** A chunk of the blob, offered to the receiver, is answered with the receiver's position. */
  lemma Offered(x: End, p: Peer, id: u32, off: nat)
    requires Known(x, id) && AssemblyOk(x, p) && off < |x.sent[Nth(id) - 1]| <= TOTAL_MAX && off % PAYLOAD == 0
    ensures var k := Piece(x, id, off);
      var o := HandleData(p, id, k.total, off, k.payload);
      |o.sent| == 1 && o.sent[0].Ack? && o.sent[0].ackId == id && o.peer.failed == p.failed
      && (o.sent[0].got == k.total
          || (o.sent[0].got < k.total && o.peer.active && o.peer.recvId == id && |o.peer.buf| == o.sent[0].got))
      && (off == Position(p, id) ==> o.sent[0].got > off)
  {
    hide Chunk;
  }

  lemma Offer(s: Pair, off: nat) returns (got: nat)
    requires Going(s) && s.l.peer.queue != [] && off < |s.l.peer.queue[0].data| && off % PAYLOAD == 0
    requires Known(s.l, s.l.peer.queue[0].id) && s.l.peer.queue[0].data == s.l.sent[Nth(s.l.peer.queue[0].id) - 1]
    requires Piece(s.l, s.l.peer.queue[0].id, off) in s.l.out
    ensures var b := s.l.peer.queue[0];
      var t := Turn(s, AtRight(Hear(Piece(s.l, b.id, off))));
      && Going(t) && t.l == s.l && Ack(b.id, got) in t.r.out
      && (got == |b.data|
          || (got < |b.data| && Position(t.r.peer, b.id) == got && t.r.peer.active && t.r.peer.recvId == b.id))
      && (off == Position(s.r.peer, b.id) ==> got > off)
  {
    hide Inv, Mailed, HandleData, Chunk, Completes;
    GoingHead(s);
    var b := s.l.peer.queue[0];
    Offered(s.l, s.r.peer, b.id, off);
    var k := Piece(s.l, b.id, off);
    var o := HandleData(s.r.peer, b.id, k.total, off, k.payload);
    got := o.sent[0].got;
    assert o.sent[0] == Ack(b.id, got);
    GoingOn(s, AtRight(Hear(k)));
  }

  /** The sender has queued nothing new and is still at the same blob. */
  ghost predicate SameHead(s: Pair, t: Pair)
  {
    && t.l.sent == s.l.sent && s.l.peer.queue != [] && t.l.peer.queue != []
    && t.l.peer.queue[1..] == s.l.peer.queue[1..]
    && t.l.peer.queue[0].id == s.l.peer.queue[0].id && t.l.peer.queue[0].data == s.l.peer.queue[0].data
  }

  /** The sender has queued nothing new and is done with the blob at its head. */
  ghost predicate HeadGone(s: Pair, t: Pair)
  {
    t.l.sent == s.l.sent && s.l.peer.queue != [] && t.l.peer.queue == s.l.peer.queue[1..]
  }

  /** The sender hears the answer: the blob is done, or the sender is at or past the receiver's position. */
  lemma AnswerHeard(s: Pair, got: nat)
    requires Going(s) && s.l.peer.queue != [] && Ack(s.l.peer.queue[0].id, got) in s.r.out
    requires got <= |s.l.peer.queue[0].data|
    ensures var b := s.l.peer.queue[0];
      var t := Turn(s, AtLeft(Hear(Ack(b.id, got))));
      && Going(t) && t.r == s.r && t.l.sent == s.l.sent
      && (got == |b.data| ==> t.l.peer.queue == s.l.peer.queue[1..])
      && (got < |b.data| ==> SameHead(s, t) && got <= t.l.peer.queue[0].unacked)
  {
    GoingHead(s);
    hide Inv, Mailed, Below, AssemblyOk;
    var k := Ack(s.l.peer.queue[0].id, got);
    assert WindowOk(s.l.peer.queue[0]);
    GoingOn(s, AtLeft(Hear(k)));
  }

  /** A retry puts the first unacknowledged chunk on the wire. */
  lemma RetrySends(b: Blob)
    requires WindowOk(b) && b.data != []
    ensures var w := Rewound(b, true);
      w == b.(nextOff := b.unacked) && DataAt(b, b.unacked) in FillWindow(w).packets && b.unacked % PAYLOAD == 0
  {
    var w := Rewound(b, true);
    assert FillWindow(w).packets[0] == DataAt(w, b.unacked);
  }

  lemma Retry(s: Pair)
    requires Going(s) && s.l.peer.queue != [] && s.l.peer.queue[0].data != []
    ensures var b := s.l.peer.queue[0];
      var t := Turn(s, AtLeft(Pump(true)));
      && Going(t) && t.r == s.r && SameHead(s, t) && s.l.out <= t.l.out
      && t.l.peer.queue[0].unacked == b.unacked && Known(t.l, b.id) && b.data == t.l.sent[Nth(b.id) - 1]
      && b.unacked < |b.data| && b.unacked % PAYLOAD == 0 && Piece(t.l, b.id, b.unacked) in t.l.out
  {
    GoingHead(s);
    hide Inv, Mailed, Below, AssemblyOk, FillWindow, Rewound;
    var b := s.l.peer.queue[0];
    RetrySends(b);
    assert b.unacked < |b.data|;
    assert DataAt(b, b.unacked) == Piece(s.l, b.id, b.unacked);
    GoingOn(s, AtLeft(Pump(true)));
  }

  /** The chunk at `off` of the head blob is on the wire. */
  ghost predicate OnWire(s: Pair, off: nat)
  {
    && s.l.peer.queue != [] && off < |s.l.peer.queue[0].data| && off % PAYLOAD == 0
    && Known(s.l, s.l.peer.queue[0].id) && s.l.peer.queue[0].data == s.l.sent[Nth(s.l.peer.queue[0].id) - 1]
    && Piece(s.l, s.l.peer.queue[0].id, off) in s.l.out
  }

  /** After a retry every chunk up to the first unacknowledged one is on the wire. */
  lemma UpToUnacked(s: Pair, off: nat)
    requires Going(s) && s.l.peer.queue != [] && OnWire(s, s.l.peer.queue[0].unacked)
    requires off <= s.l.peer.queue[0].unacked && off % PAYLOAD == 0
    ensures OnWire(s, off)
  {
    GoingHead(s);
    hide Inv, Mailed;
    var b := s.l.peer.queue[0];
    if off < b.unacked { assert off < b.nextOff && off < |s.l.sent[Nth(b.id) - 1]|; }
  }

  lemma PositionAligned(s: Pair)
    requires Going(s) && s.r.peer.active
    ensures |s.r.peer.buf| % PAYLOAD == 0
  {
  }

  /** One chunk is heard, the answer is heard, and the sender retries. */
  lemma Exchange(s: Pair, off: nat) returns (es: seq<Event>)
    requires Going(s) && OnWire(s, off)
    ensures var b := s.l.peer.queue[0];
      var t := Resume(s, es);
      && Going(t)
      && (HeadGone(s, t)
          || (SameHead(s, t) && OnWire(t, Position(t.r.peer, b.id))
              && (off == Position(s.r.peer, b.id) ==> Position(t.r.peer, b.id) > off)))
  {
    hide Going, Turn, Resume, Position;
    var b := s.l.peer.queue[0];
    var hear := AtRight(Hear(Piece(s.l, b.id, off)));
    var got := Offer(s, off);
    var t1 := Turn(s, hear);
    var answer := AtLeft(Hear(Ack(b.id, got)));
    AnswerHeard(t1, got);
    var t2 := Turn(t1, answer);
    ResumeThree(s, hear, answer, AtLeft(Pump(true)));
    if got == |b.data| {
      es := [hear, answer];
    } else {
      Retry(t2);
      var t3 := Turn(t2, AtLeft(Pump(true)));
      assert OnWire(t3, t3.l.peer.queue[0].unacked);
      PositionAligned(t3);
      PositionIs(t3.r.peer, b.id);
      UpToUnacked(t3, got);
      es := [hear, answer, AtLeft(Pump(true))];
    }
  }

  lemma PositionIs(p: Peer, id: u32)
    requires p.active && p.recvId == id
    ensures Position(p, id) == |p.buf|
  {
  }

  lemma SameHeadOn(s: Pair, t: Pair, u: Pair)
    requires SameHead(s, t)
    ensures SameHead(t, u) ==> SameHead(s, u)
    ensures HeadGone(t, u) ==> HeadGone(s, u)
  {
  }

  /** From the receiver's position on, chunk after chunk, to the end of the blob. */
  lemma {:induction false} ToTheEnd(s: Pair) returns (es: seq<Event>)
    requires Going(s) && s.l.peer.queue != [] && OnWire(s, Position(s.r.peer, s.l.peer.queue[0].id))
    ensures Going(Resume(s, es)) && HeadGone(s, Resume(s, es))
    decreases |s.l.peer.queue[0].data| - Position(s.r.peer, s.l.peer.queue[0].id)
  {
    hide Going, Resume, Position;
    var one := Exchange(s, Position(s.r.peer, s.l.peer.queue[0].id));
    var t := Resume(s, one);
    if HeadGone(s, t) {
      es := one;
    } else {
      var rest := ToTheEnd(t);
      es := one + rest;
      ResumeConcat(s, one, rest);
      SameHeadOn(s, t, Resume(t, rest));
    }
  }

  /** A non-empty blob at the head can be delivered and retired, whatever the link did so far. */
  lemma HeadCanRetire(s: Pair) returns (es: seq<Event>)
    requires Going(s) && s.l.peer.queue != [] && s.l.peer.queue[0].data != []
    ensures Going(Resume(s, es)) && HeadGone(s, Resume(s, es))
  {
    hide Going, Turn, Resume, Position;
    Retry(s);
    var pump := AtLeft(Pump(true));
    var t := Turn(s, pump);
    ResumeThree(s, pump, pump, pump);
    assert OnWire(t, t.l.peer.queue[0].unacked);
    var one := Exchange(t, t.l.peer.queue[0].unacked);
    var u := Resume(t, one);
    SameHeadOn(s, t, u);
    if HeadGone(t, u) {
      es := [pump] + one;
      ResumeConcat(s, [pump], one);
    } else {
      var rest := ToTheEnd(u);
      SameHeadOn(s, u, Resume(u, rest));
      es := [pump] + one + rest;
      ResumeConcat(s, [pump], one);
      ResumeConcat(s, [pump] + one, rest);
    }
  }

  ghost predicate NoneEmpty(q: seq<Blob>)
  {
    forall i :: 0 <= i < |q| ==> q[i].data != []
  }

  lemma {:induction false} QueueCanDrain(s: Pair) returns (es: seq<Event>)
    requires Going(s) && NoneEmpty(s.l.peer.queue)
    ensures var t := Resume(s, es); Going(t) && t.l.peer.queue == [] && t.l.sent == s.l.sent
    decreases |s.l.peer.queue|
  {
    hide Going, Turn, Resume;
    if s.l.peer.queue == [] {
      es := [];
      ResumeNothing(s);
    } else {
      var head := HeadCanRetire(s);
      var t := Resume(s, head);
      var rest := QueueCanDrain(t);
      es := head + rest;
      ResumeConcat(s, head, rest);
    }
  }

  lemma ResumeNothing(s: Pair)
    ensures Resume(s, []) == s
  {
  }

  // ---- empty blobs --------------------------------------------------------

  /** No event retires an empty blob. */
  lemma EmptyKept(x: End, y: End, e: EndEvent, id: u32)
    requires DirOk(x, y) && Known(x, id) && x.sent[Nth(id) - 1] == [] && Retired(x) < Nth(id)
             && (e.Hear? ==> e.k in y.out)
    ensures Retired(EndStep(x, e)) < Nth(id)
  {
    if e.Hear? && e.k.Ack? { assert AckOk(x, y, e.k); }
  }

  lemma {:induction false} EmptyNeverRetired(es: seq<Event>, more: seq<Event>, id: u32)
    requires |Execute(es + more).l.sent| <= IDS
    requires var x := Execute(es).l; Known(x, id) && x.sent[Nth(id) - 1] == [] && Retired(x) < Nth(id)
    ensures var x := Execute(es + more).l; Known(x, id) && x.sent[Nth(id) - 1] == [] && Retired(x) < Nth(id)
    decreases |more|
  {
    hide EndStep;
    if more == [] {
      assert es + more == es;
    } else {
      var front, ev := more[..|more| - 1], more[|more| - 1];
      var all := es + more;
      assert all[..|all| - 1] == es + front;
      SentGrows(all, |all| - 1);
      EmptyNeverRetired(es, front, id);
      RunInv(es + front);
      var s := Execute(es + front);
      EndKeepsSent(s.l, ev.e);
      if ev.AtLeft? && Turn(s, ev) != s { EmptyKept(s.l, s.r, ev.e, id); }
    }
  }

  /** Some continuation empties the send queue without anything new being queued. */
  ghost predicate Drainable(es: seq<Event>)
  {
    exists more: seq<Event> :: Execute(es + more).l.peer.queue == [] && Execute(es + more).l.sent == Execute(es).l.sent
  }

  /** A reachable state in which neither end has failed and every blob is of a length the receiver admits. */
  ghost predicate Sound(es: seq<Event>)
  {
    var s := Execute(es);
    && |s.l.sent| <= IDS && !s.l.peer.failed && !s.r.peer.failed
    && forall i :: 0 <= i < |s.l.sent| ==> |s.l.sent[i]| <= TOTAL_MAX
  }

  lemma NoneEmptyDrains(es: seq<Event>)
    requires Sound(es) && NoneEmpty(Execute(es).l.peer.queue)
    ensures Drainable(es)
  {
    RunInv(es);
    RunMailed(es);
    var s := Execute(es);
    assert Going(s);
    hide Going, Execute, Resume, Inv, Mailed, Sound;
    var more := QueueCanDrain(s);
    ExecuteResumes(es, more);
  }

  lemma EmptyBlocks(es: seq<Event>, more: seq<Event>, i: nat)
    requires Sound(es) && i < |Execute(es).l.peer.queue| && Execute(es).l.peer.queue[i].data == []
    requires Execute(es + more).l.sent == Execute(es).l.sent
    ensures Execute(es + more).l.peer.queue != []
  {
    hide Execute, AckOk, DataOk;
    RunInv(es);
    EmptyNeverRetired(es, more, Execute(es).l.peer.queue[i].id);
  }

  /**
   * Exactly the queues without an empty blob can still be emptied, in every reachable state in which neither end
   * has failed.
   */
  lemma DrainableIff(es: seq<Event>)
    requires Sound(es)
    ensures Drainable(es) <==> NoneEmpty(Execute(es).l.peer.queue)
  {
    hide Execute, Sound;
    if NoneEmpty(Execute(es).l.peer.queue) {
      NoneEmptyDrains(es);
    } else {
      var i :| 0 <= i < |Execute(es).l.peer.queue| && Execute(es).l.peer.queue[i].data == [];
      forall more: seq<Event> | Execute(es + more).l.sent == Execute(es).l.sent
        ensures Execute(es + more).l.peer.queue != []
      {
        EmptyBlocks(es, more, i);
      }
    }
  }

  // ---- finished blobs -----------------------------------------------------

  /** Every chunk of every finished blob has been on the wire. */
  ghost predicate DoneMailed(x: End, y: End)
  {
    forall id :: id in y.done ==> Known(x, id) && x.sent[Nth(id) - 1] != [] && Below(x, id, |x.sent[Nth(id) - 1]|)
  }

  lemma CompletesMailed(x: End, p: Peer, k: Packet)
    requires k.Data? && k in x.out && DataOk(x, k) && AssemblyOk(x, p) && (p.active ==> Below(x, p.recvId, |p.buf|))
    requires Completes(p, k.id, k.total, k.off, k.payload)
    ensures Known(x, k.id) && x.sent[Nth(k.id) - 1] != [] && Below(x, k.id, |x.sent[Nth(k.id) - 1]|)
  {
    hide Chunk;
    var q := Reopened(p, k.id, k.total);
    assert q.active && q.recvId == k.id && Below(x, k.id, |q.buf|);
    assert k == Piece(x, k.id, k.off);
    BelowNext(x, k.id, k.off);
  }

  lemma TurnDoneMailed(s: Pair, ev: Event)
    requires Inv(s) && Mailed(s.l, s.r) && DoneMailed(s.l, s.r) && |Turn(s, ev).l.sent| <= IDS
    ensures DoneMailed(Turn(s, ev).l, Turn(s, ev).r)
  {
    hide Below, QueueOk, Completes, HandleData, HandleAck, Tick, Genuine;
    var t := Turn(s, ev);
    EndKeepsSent(s.l, ev.e);
    OutGrows(s, ev);
    forall id | id in t.r.done
      ensures Known(t.l, id) && t.l.sent[Nth(id) - 1] != [] && Below(t.l, id, |t.l.sent[Nth(id) - 1]|) {
      if id in s.r.done {
        BelowGrows(s.l, t.l, id, |s.l.sent[Nth(id) - 1]|);
      } else {
        assert DataOk(s.l, ev.e.k);
        CompletesMailed(s.l, s.r.peer, ev.e.k);
      }
    }
  }

  lemma {:induction false} RunDoneMailed(es: seq<Event>)
    requires |Execute(es).l.sent| <= IDS
    ensures DoneMailed(Execute(es).l, Execute(es).r)
  {
    hide Turn, Below;
    if es != [] {
      SentGrows(es, |es| - 1);
      RunDoneMailed(es[..|es| - 1]);
      RunMailed(es[..|es| - 1]);
      RunInv(es[..|es| - 1]);
      TurnDoneMailed(Execute(es[..|es| - 1]), es[|es| - 1]);
    }
  }

  /** The host of the receiver takes what is ready. */
  lemma {:induction false} TakesAll(s: Pair) returns (es: seq<Event>)
    requires Inv(s)
    ensures var t := Resume(s, es); Inv(t) && t.l == s.l && t.r.peer.ready == [] && t.r.delivered == s.r.delivered
    decreases |s.r.peer.ready|
  {
    hide Inv, Resume;
    if s.r.peer.ready == [] {
      es := [];
      ResumeNothing(s);
    } else {
      var take := AtRight(Take);
      TurnInv(s, take);
      var rest := TakesAll(Turn(s, take));
      es := [take] + rest;
      ResumeThree(s, take, take, take);
      ResumeConcat(s, [take], rest);
    }
  }

  /** Chunk after chunk of an old blob, from wherever the receiver stands in it. */
  lemma {:induction false} Reassembles(s: Pair, id: u32) returns (es: seq<Event>)
    requires Inv(s) && |s.l.sent| <= IDS && s.r.peer.ready == []
    requires Known(s.l, id) && 0 < |s.l.sent[Nth(id) - 1]| <= TOTAL_MAX && Below(s.l, id, |s.l.sent[Nth(id) - 1]|)
    ensures var t := Resume(s, es); t.l == s.l && t.r.delivered == s.r.delivered + [s.l.sent[Nth(id) - 1]]
    decreases |s.l.sent[Nth(id) - 1]| - Position(s.r.peer, id)
  {
    hide Resume, Below;
    var off := Position(s.r.peer, id);
    assert AssemblyOk(s.l, s.r.peer);
    PieceAt(s.l, id, off);
    var k := Piece(s.l, id, off);
    var hear := AtRight(Hear(k));
    var t := Turn(s, hear);
    HearPiece(s, id, off);
    TurnInv(s, hear);
    ResumeThree(s, hear, hear, hear);
    if t.r.delivered != s.r.delivered {
      es := [hear];
    } else {
      var rest := Reassembles(t, id);
      es := [hear] + rest;
      ResumeConcat(s, [hear], rest);
    }
  }

  lemma PieceAt(x: End, id: u32, off: nat)
    requires Known(x, id) && Below(x, id, |x.sent[Nth(id) - 1]|) && off < |x.sent[Nth(id) - 1]| && off % PAYLOAD == 0
    ensures Piece(x, id, off) in x.out
  {
  }

  lemma HearPiece(s: Pair, id: u32, off: nat)
    requires Inv(s) && |s.l.sent| <= IDS && s.r.peer.ready == [] && Known(s.l, id)
    requires off == Position(s.r.peer, id) < |s.l.sent[Nth(id) - 1]| <= TOTAL_MAX && off % PAYLOAD == 0
    requires Piece(s.l, id, off) in s.l.out
    ensures var t := Turn(s, AtRight(Hear(Piece(s.l, id, off))));
      && t.l == s.l
      && (t.r.delivered == s.r.delivered + [s.l.sent[Nth(id) - 1]]
          || (t.r.delivered == s.r.delivered && t.r.peer.ready == []
              && off < Position(t.r.peer, id) < |s.l.sent[Nth(id) - 1]|))
  {
    var k := Piece(s.l, id, off);
    assert DataOk(s.l, k) && AssemblyOk(s.l, s.r.peer);
    Offered(s.l, s.r.peer, id, off);
    ChunkDelivers(s.l, s.r.peer, k);
    hide HandleData, Chunk, Completes, QueueOk, Delivering;
  }

  /**
   * Delivery is never exactly once: in every reachable state every blob the receiver has finished can be delivered
   * once more, from chunks already sent.
   */
  lemma FinishedCanRepeat(es: seq<Event>, id: u32) returns (more: seq<Event>)
    requires |Execute(es).l.sent| <= IDS && id in Execute(es).r.done
    requires forall i :: 0 <= i < |Execute(es).l.sent| ==> |Execute(es).l.sent[i]| <= TOTAL_MAX
    ensures Known(Execute(es).l, id) && Execute(es + more).l == Execute(es).l
    ensures Execute(es + more).r.delivered == Execute(es).r.delivered + [Execute(es).l.sent[Nth(id) - 1]]
  {
    hide Execute, Resume, Below, Inv;
    var s := Execute(es);
    RunInv(es);
    RunDoneMailed(es);
    var clear := TakesAll(s);
    var again := Reassembles(Resume(s, clear), id);
    more := clear + again;
    ResumeConcat(s, clear, again);
    ExecuteResumes(es, more);
  }
}
