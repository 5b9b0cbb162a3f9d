/** Two ends of a transfer joined by a network that loses, repeats and reorders packets. */
module IceXferProtocol {
  import opened Common
  import opened IceXfer

  /** One end with its past: every packet it sent, every blob it queued, the ids it fully assembled,
      and every blob that reached its ready queue. */
  datatype End = End(peer: Peer, out: set<Packet>, sent: seq<Bytes>, done: set<u32>, delivered: seq<Bytes>)

  const NEW_END := End(NEW_PEER, {}, [], {}, [])

  datatype EndEvent = Queue(data: Bytes) | Hear(k: Packet) | Pump(elapsed: bool) | Take | GiveUp

  function EndStep(x: End, e: EndEvent): End
  {
    match e
    case Queue(data) =>
      var p := Enqueue(x.peer, data);
      x.(peer := p, sent := if p != x.peer then x.sent + [data] else x.sent)
    case Hear(k) =>
      var o := Receive(x.peer, k);
      x.(peer := o.peer, out := x.out + (set k | k in o.sent),
         done := if k.Data? && Completes(x.peer, k.id, k.total, k.off, k.payload) then x.done + {k.id} else x.done,
         delivered := if |o.peer.ready| > |x.peer.ready|
                      then x.delivered + [o.peer.ready[|o.peer.ready| - 1]] else x.delivered)
    case Pump(elapsed) =>
      var o := Tick(x.peer, elapsed);
      x.(peer := o.peer, out := x.out + (set k | k in o.sent))
    case Take => x.(peer := TakeReady(x.peer))
    case GiveUp => x.(peer := x.peer.(failed := true), out := x.out + {Fail})
  }

  datatype Pair = Pair(l: End, r: End)

  datatype Event = AtLeft(e: EndEvent) | AtRight(e: EndEvent)

  function Turn(s: Pair, ev: Event): Pair
  {
    match ev
    case AtLeft(e) => if e.Hear? && e.k !in s.r.out then s else s.(l := EndStep(s.l, e))
    case AtRight(e) => if e.Hear? && e.k !in s.l.out then s else s.(r := EndStep(s.r, e))
  }

  function Execute(es: seq<Event>): Pair
  {
    if es == [] then Pair(NEW_END, NEW_END) else Turn(Execute(es[..|es| - 1]), es[|es| - 1])
  }

  // ---- the invariant of one direction -------------------------------------

  /** A multiple of the payload size, or the end of the blob. */
  predicate Aligned(n: nat, len: nat)
  {
    n <= len && (n % PAYLOAD == 0 || n == len)
  }

  /** How many ids there are. */
  const IDS := U32_MAX + 1

  /** Which blob an id names first: ids start at 1, and 0 comes after the largest. */
  function Nth(id: u32): (n: nat)
    ensures 1 <= n <= IDS
  {
    if id == 0 then IDS else id
  }

  /** `id` names a blob this end queued. */
  predicate Known(x: End, id: u32)
  {
    Nth(id) <= |x.sent|
  }

  /** How many blobs have left the send queue. */
  function Retired(x: End): int
  {
    |x.sent| - |x.peer.queue|
  }

  ghost predicate WindowOk(b: Blob)
  {
    && b.unacked <= b.nextOff <= b.unacked + WINDOW * PAYLOAD
    && Aligned(b.unacked, |b.data|) && Aligned(b.nextOff, |b.data|)
    && (b.data != [] ==> b.unacked < |b.data|)
  }

  ghost predicate QueueOk(x: End)
  {
    && x.peer.nextId == |x.sent| % IDS && |x.peer.queue| <= |x.sent|
    && (forall i :: 0 <= i < |x.peer.queue| ==>
          && Nth(x.peer.queue[i].id) == Retired(x) + i + 1
          && x.peer.queue[i].data == x.sent[Retired(x) + i]
          && WindowOk(x.peer.queue[i])
          && (i > 0 ==> x.peer.queue[i].unacked == x.peer.queue[i].nextOff == 0))
  }

  /** A chunk on the wire is a chunk of a queued blob that is at or before the head of the queue. */
  ghost predicate DataOk(x: End, k: Packet)
    requires k.Data?
  {
    && Known(x, k.id) && Nth(k.id) <= Retired(x) + 1
    && k.total == |x.sent[Nth(k.id) - 1]| && k.off < k.total && k.off % PAYLOAD == 0
    && k.payload == Chunk(x.sent[Nth(k.id) - 1], k.off)
  }

  /** An acknowledgement counts aligned bytes of a blob, and all of them only when it was assembled. */
  ghost predicate AckOk(x: End, y: End, k: Packet)
    requires k.Ack?
  {
    && Known(x, k.ackId) && x.sent[Nth(k.ackId) - 1] != []
    && Aligned(k.got, |x.sent[Nth(k.ackId) - 1]|)
    && (k.got == |x.sent[Nth(k.ackId) - 1]| ==> k.ackId in y.done)
  }

  /** The receiver holds a proper prefix of the blob it is assembling. */
  ghost predicate AssemblyOk(x: End, p: Peer)
  {
    p.active ==>
      && Known(x, p.recvId) && Nth(p.recvId) <= Retired(x) + 1
      && p.total == |x.sent[Nth(p.recvId) - 1]| && |p.buf| < p.total && |p.buf| % PAYLOAD == 0
      && p.buf == x.sent[Nth(p.recvId) - 1][..|p.buf|]
  }

  /** Blobs are finished in order: the finished ids are 1..n, covering at least the retired ones. */
  ghost predicate DoneOk(x: End, y: End)
  {
    && (forall id :: id in y.done ==> Known(x, id) && Nth(id) <= Retired(x) + 1)
    && (forall id: u32 :: Nth(id) <= Retired(x) ==> id in y.done)
  }

  ghost predicate Genuine(x: End, blobs: seq<Bytes>)
  {
    forall i :: 0 <= i < |blobs| ==> blobs[i] in x.sent
  }

  /** What ties the sender x to the receiver y. */
  ghost predicate DirOk(x: End, y: End)
  {
    && QueueOk(x)
    && (forall k :: k in x.out && k.Data? ==> DataOk(x, k))
    && (forall k :: k in y.out && k.Ack? ==> AckOk(x, y, k))
    && AssemblyOk(x, y.peer) && DoneOk(x, y)
    && Genuine(x, y.peer.ready) && Genuine(x, y.delivered)
  }

  /** Ids are 32 bits wide; the claims last for the first 2^32 blobs of an end. */
  ghost predicate DirInv(x: End, y: End)
  {
    |x.sent| <= IDS ==> DirOk(x, y)
  }

  ghost predicate Inv(s: Pair)
  {
    DirInv(s.l, s.r) && DirInv(s.r, s.l)
  }

  // ---- the sender ---------------------------------------------------------

  lemma {:induction false} FillWindowOk(b: Blob)
    requires WindowOk(b)
    ensures WindowOk(FillWindow(b).blob)
    ensures forall k :: k in FillWindow(b).packets ==>
              k.Data? && k.id == b.id && k.total == |b.data| && k.off < |b.data| && k.off % PAYLOAD == 0
              && k.payload == Chunk(b.data, k.off)
    decreases |b.data| - b.nextOff
  {
    if b.nextOff < |b.data| && b.nextOff < b.unacked + WINDOW * PAYLOAD {
      FillWindowOk(b.(nextOff := b.nextOff + Min(PAYLOAD, |b.data| - b.nextOff)));
    }
  }

  lemma RewoundOk(b: Blob, elapsed: bool)
    requires WindowOk(b)
    ensures WindowOk(Rewound(b, elapsed))
  {
  }

  /** The receiver's facts survive whatever the sender does that keeps old blobs and only retires assembled ones. */
  lemma SenderFrame(x: End, x': End, y: End)
    requires DirOk(x, y) && QueueOk(x') && x.sent <= x'.sent
    requires Retired(x) <= Retired(x') && (forall id: u32 :: Nth(id) <= Retired(x') ==> id in y.done)
    requires forall k :: k in x'.out && k.Data? && k !in x.out ==> DataOk(x', k)
    ensures DirOk(x', y)
  {
    assert forall id :: Known(x, id) ==> x'.sent[Nth(id) - 1] == x.sent[Nth(id) - 1];
    forall k | k in x'.out && k.Data? ensures DataOk(x', k) { if k in x.out { assert DataOk(x, k); } }
    forall k | k in y.out && k.Ack? ensures AckOk(x', y, k) { assert AckOk(x, y, k); }
  }

  /** A queued blob takes the next id, which no blob before it had. */
  lemma QueueKeeps(x: End, data: Bytes)
    requires QueueOk(x) && |EndStep(x, Queue(data)).sent| <= IDS
    ensures QueueOk(EndStep(x, Queue(data))) && Retired(EndStep(x, Queue(data))) == Retired(x)
  {
    hide WindowOk;
    var x' := EndStep(x, Queue(data));
    if x' != x {
      var n := |x.sent|;
      assert n % IDS == n && x'.sent == x.sent + [data];
      var b := x'.peer.queue[|x.peer.queue|];
      assert Nth(b.id) == n + 1 && x'.peer.nextId == (n + 1) % IDS;
      assert WindowOk(b) by { FreshWindowOk(b); }
    }
  }

  lemma FreshWindowOk(b: Blob)
    requires b.unacked == b.nextOff == 0
    ensures WindowOk(b)
  {
  }

  lemma QueueTurn(x: End, y: End, data: Bytes)
    requires DirOk(x, y) && |EndStep(x, Queue(data)).sent| <= IDS
    ensures DirOk(EndStep(x, Queue(data)), y)
  {
    QueueKeeps(x, data);
    hide QueueOk, DataOk, AckOk, AssemblyOk, Genuine;
    SenderFrame(x, EndStep(x, Queue(data)), y);
  }

  /** An acknowledgement moves the window of the head or retires it. */
  lemma AckKeeps(x: End, y: End, k: Packet)
    requires QueueOk(x) && DoneOk(x, y) && k.Ack? && AckOk(x, y, k)
    ensures var x' := EndStep(x, Hear(k));
      QueueOk(x') && Retired(x) <= Retired(x') && (forall id: u32 :: Nth(id) <= Retired(x') ==> id in y.done)
  {
    hide WindowOk, Aligned;
    var x' := EndStep(x, Hear(k));
    if x.peer.queue != [] && x.peer.queue[0].id == k.ackId && k.got >= x.peer.queue[0].unacked {
      var b := x.peer.queue[0];
      assert b.data == x.sent[Nth(b.id) - 1] != [];
      if k.got < |b.data| {
        AckedWindowOk(b, k.got);
        assert x'.peer.queue[1..] == x.peer.queue[1..];
      } else {
        AlignedFits(k.got, |b.data|);
        assert x'.peer.queue == x.peer.queue[1..];
        forall id: u32 | Nth(id) <= Retired(x') ensures id in y.done {
          assert Nth(id) == Retired(x') ==> id == k.ackId;
        }
      }
    }
  }

  lemma AckedWindowOk(b: Blob, got: nat)
    requires WindowOk(b) && b.unacked <= got < |b.data| && Aligned(got, |b.data|)
    ensures WindowOk(b.(unacked := got, nextOff := if got > b.nextOff then got else b.nextOff))
  {
  }

  lemma AlignedFits(n: nat, len: nat)
    requires Aligned(n, len)
    ensures n <= len
  {
  }

  lemma AckTurn(x: End, y: End, k: Packet)
    requires DirOk(x, y) && k.Ack? && k in y.out
    ensures DirOk(EndStep(x, Hear(k)), y)
  {
    assert AckOk(x, y, k);
    AckKeeps(x, y, k);
    hide QueueOk, DataOk, AckOk, AssemblyOk, Genuine, DoneOk, HandleAck;
    SenderFrame(x, EndStep(x, Hear(k)), y);
  }

  /** What a pump sends are chunks of the head, whose window it keeps. */
  lemma TickOk(x: End, elapsed: bool)
    requires QueueOk(x)
    ensures QueueOk(x.(peer := Tick(x.peer, elapsed).peer))
    ensures forall k :: k in Tick(x.peer, elapsed).sent && k.Data? ==> DataOk(x, k)
    ensures |Tick(x.peer, elapsed).peer.queue| == |x.peer.queue|
  {
    hide FillWindow, Rewound, WindowOk;
    if x.peer.queue != [] {
      var b := x.peer.queue[0];
      RewoundOk(b, elapsed);
      FillWindowOk(Rewound(b, elapsed));
      assert Rewound(b, elapsed).data == b.data && Rewound(b, elapsed).id == b.id by { RewoundKeeps(b, elapsed); }
    }
  }

  lemma RewoundKeeps(b: Blob, elapsed: bool)
    ensures Rewound(b, elapsed) == b.(nextOff := Rewound(b, elapsed).nextOff)
    ensures Rewound(b, elapsed).unacked == b.unacked
    ensures b.unacked <= b.nextOff ==> Rewound(b, elapsed).nextOff <= b.nextOff
  {
  }

  lemma PumpTurn(x: End, y: End, elapsed: bool)
    requires DirOk(x, y)
    ensures DirOk(EndStep(x, Pump(elapsed)), y)
  {
    hide Tick, DataOk;
    TickOk(x, elapsed);
    var x' := EndStep(x, Pump(elapsed));
    forall k | k in x'.out && k.Data? && k !in x.out ensures DataOk(x', k) {
      assert DataOk(x, k);
      SameRetired(x, x', k);
    }
    SenderFrame(x, x', y);
  }

  lemma SameRetired(x: End, x': End, k: Packet)
    requires k.Data? && DataOk(x, k) && x.sent == x'.sent && Retired(x) == Retired(x')
    ensures DataOk(x', k)
  {
  }

  lemma SenderTurn(x: End, y: End, e: EndEvent)
    requires DirOk(x, y) && (e.Hear? ==> e.k in y.out) && |EndStep(x, e).sent| <= IDS
    ensures DirOk(EndStep(x, e), y)
  {
    hide Tick, HandleData, HandleAck, Enqueue, Completes;
    match e
    case Queue(data) => QueueTurn(x, y, data);
    case Hear(k) => if k.Ack? { AckTurn(x, y, k); } else { HearTurn(x, y, k); }
    case Pump(elapsed) => PumpTurn(x, y, elapsed);
    case Take => SenderFrame(x, EndStep(x, e), y);
    case GiveUp => SenderFrame(x, EndStep(x, e), y);
  }

  /** Anything but an acknowledgement leaves the sending half alone. */
  lemma HearTurn(x: End, y: End, k: Packet)
    requires DirOk(x, y) && !k.Ack?
    ensures DirOk(EndStep(x, Hear(k)), y)
  {
    hide Completes, DataOk;
    var x' := EndStep(x, Hear(k));
    assert x'.peer.queue == x.peer.queue && x'.peer.nextId == x.peer.nextId;
    SenderFrame(x, x', y);
  }

  // ---- the receiver -------------------------------------------------------

  /** A genuine chunk at the right place extends the prefix by exactly that chunk. */
  lemma ChunkExtends(data: Bytes, off: nat)
    requires off < |data| && off % PAYLOAD == 0
    ensures data[..off] + Chunk(data, off) == data[..off + |Chunk(data, off)|]
    ensures off + |Chunk(data, off)| <= |data|
    ensures off + |Chunk(data, off)| < |data| ==> (off + |Chunk(data, off)|) % PAYLOAD == 0
  {
  }

  /** A genuine chunk keeps the assembly a prefix, is acknowledged, and completes only the whole blob. */
  lemma ChunkHandled(y: End, p: Peer, k: Packet)
    requires k.Data? && DataOk(y, k) && AssemblyOk(y, p) && k.total <= TOTAL_MAX
    ensures var o := HandleData(p, k.id, k.total, k.off, k.payload);
      var data := y.sent[Nth(k.id) - 1];
      && AssemblyOk(y, o.peer) && o.peer.failed == p.failed
      && (o.peer.ready == p.ready || o.peer.ready == p.ready + [data])
      && |o.sent| == 1 && o.sent[0].Ack? && o.sent[0].ackId == k.id && Aligned(o.sent[0].got, |data|)
      && (o.sent[0].got == |data| ==> Completes(p, k.id, k.total, k.off, k.payload))
  {
    hide Chunk;
    var data := y.sent[Nth(k.id) - 1];
    var q := Reopened(p, k.id, k.total);
    assert AssemblyOk(y, q) && q.total == |data|;
    ChunkExtends(data, k.off);
    assert data[..|data|] == data;
  }

  /** The sender's facts survive whatever the receiver does that keeps its own. */
  lemma ReceiverFrame(y: End, x: End, x': End)
    requires DirOk(y, x) && AssemblyOk(y, x'.peer) && Genuine(y, x'.peer.ready) && Genuine(y, x'.delivered)
    requires x.done <= x'.done
    requires forall id :: id in x'.done && id !in x.done ==> Known(y, id) && Nth(id) <= Retired(y) + 1
    requires forall a :: a in x'.out && a.Ack? && a !in x.out ==> AckOk(y, x', a)
    ensures DirOk(y, x')
  {
    hide AssemblyOk, QueueOk, DataOk, Genuine;
    forall a | a in x'.out && a.Ack? ensures AckOk(y, x', a) { if a in x.out { assert AckOk(y, x, a); } }
  }

  /** The facts about the receiver after it handled a chunk from y. */
  lemma DataTurn(y: End, x: End, k: Packet)
    requires DirOk(y, x) && k.Data? && k in y.out && k.total <= TOTAL_MAX
    ensures DirOk(y, EndStep(x, Hear(k)))
    ensures !x.peer.failed ==> !EndStep(x, Hear(k)).peer.failed
  {
    hide HandleData, Completes, AssemblyOk, QueueOk, Genuine;
    assert DataOk(y, k);
    var data := y.sent[Nth(k.id) - 1];
    ChunkHandled(y, x.peer, k);
    GenuinePush(y, x.peer.ready, data);
    GenuinePush(y, x.delivered, data);
    ReceiverFrame(y, x, EndStep(x, Hear(k)));
  }

  lemma GenuinePush(y: End, ready: seq<Bytes>, data: Bytes)
    requires Genuine(y, ready) && data in y.sent
    ensures Genuine(y, ready + [data])
  {
  }

  lemma {:induction false} FillWindowSendsData(b: Blob)
    ensures forall k :: k in FillWindow(b).packets ==> k.Data?
    decreases |b.data| - b.nextOff
  {
    if b.nextOff < |b.data| && b.nextOff < b.unacked + WINDOW * PAYLOAD {
      FillWindowSendsData(b.(nextOff := b.nextOff + Min(PAYLOAD, |b.data| - b.nextOff)));
    }
  }

  /** A pump sends chunks only, so the receiving half of the end stays as it was. */
  lemma PumpReceives(y: End, x: End, elapsed: bool)
    requires DirOk(y, x)
    ensures DirOk(y, EndStep(x, Pump(elapsed)))
  {
    hide FillWindow, Rewound, QueueOk, DataOk;
    if x.peer.queue != [] { FillWindowSendsData(Rewound(x.peer.queue[0], elapsed)); }
    ReceiverFrame(y, x, EndStep(x, Pump(elapsed)));
  }

  lemma ReceiverTurn(y: End, x: End, e: EndEvent)
    requires DirOk(y, x) && (e.Hear? ==> e.k in y.out)
    ensures DirOk(y, EndStep(x, e))
  {
    hide EndStep, DirOk;
    match e
    case Hear(k) =>
      if k.Data? && k.total <= TOTAL_MAX { DataTurn(y, x, k); } else { OtherReceives(y, x, k); }
    case Pump(elapsed) => PumpReceives(y, x, elapsed);
    case Queue(_) => CallReceives(y, x, e);
    case Take => CallReceives(y, x, e);
    case GiveUp => CallReceives(y, x, e);
  }

  lemma OtherReceives(y: End, x: End, k: Packet)
    requires DirOk(y, x) && !(k.Data? && k.total <= TOTAL_MAX)
    ensures DirOk(y, EndStep(x, Hear(k)))
  {
    hide QueueOk, DataOk, DoneOk, AckOk;
    ReceiverFrame(y, x, EndStep(x, Hear(k)));
  }

  lemma CallReceives(y: End, x: End, e: EndEvent)
    requires DirOk(y, x) && (e.Queue? || e.Take? || e.GiveUp?)
    ensures DirOk(y, EndStep(x, e))
  {
    hide QueueOk, DataOk, DoneOk, AckOk;
    ReceiverFrame(y, x, EndStep(x, e));
  }
}
