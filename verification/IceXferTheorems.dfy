/** What holds over whole transfers, and exactly where the promise of one blob out per blob in ends. */
module IceXferTheorems {
  import opened Common
  import opened IceXfer
  import opened IceXferProtocol

  lemma EndKeepsSent(x: End, e: EndEvent)
    ensures x.sent <= EndStep(x, e).sent
  {
  }

  lemma TurnInv(s: Pair, ev: Event)
    requires Inv(s)
    ensures Inv(Turn(s, ev))
  {
    match ev
    case AtLeft(e) =>
      EndKeepsSent(s.l, e);
      if Turn(s, ev) != s {
        if |EndStep(s.l, e).sent| <= IDS { SenderTurn(s.l, s.r, e); }
        if |s.r.sent| <= IDS { ReceiverTurn(s.r, s.l, e); }
      }
    case AtRight(e) =>
      EndKeepsSent(s.r, e);
      if Turn(s, ev) != s {
        if |EndStep(s.r, e).sent| <= IDS { SenderTurn(s.r, s.l, e); }
        if |s.l.sent| <= IDS { ReceiverTurn(s.l, s.r, e); }
      }
  }

  /** Every run keeps the invariant of both directions. */
  lemma {:induction false} RunInv(es: seq<Event>)
    ensures Inv(Execute(es))
  {
    hide Turn;
    if es != [] {
      RunInv(es[..|es| - 1]);
      TurnInv(Execute(es[..|es| - 1]), es[|es| - 1]);
    }
  }

  /** The same run with the two ends exchanged. */
  function Mirror(es: seq<Event>): (m: seq<Event>)
    ensures |m| == |es|
  {
    seq(|es|, i requires 0 <= i < |es| => if es[i].AtLeft? then AtRight(es[i].e) else AtLeft(es[i].e))
  }

  /** The two directions are alike: whatever is claimed below of the left sender holds of the right one. */
  lemma {:induction false} MirrorRun(es: seq<Event>)
    ensures Execute(Mirror(es)) == Pair(Execute(es).r, Execute(es).l)
  {
    hide EndStep;
    if es != [] {
      MirrorRun(es[..|es| - 1]);
      assert Mirror(es)[..|es| - 1] == Mirror(es[..|es| - 1]);
    }
  }

  /** Integrity: every blob that reaches the ready queue, in either direction, is one the peer queued, byte for byte. */
  lemma TransferIntegrity(es: seq<Event>)
    ensures var s := Execute(es);
            && (|s.l.sent| <= IDS ==> Genuine(s.l, s.r.delivered) && Genuine(s.l, s.r.peer.ready))
            && (|s.r.sent| <= IDS ==> Genuine(s.r, s.l.delivered) && Genuine(s.r, s.l.peer.ready))
  {
    RunInv(es);
  }

  /** The receiver assembled `data` from the chunk `k`: what it held, plus the payload, was all of it. */
  ghost predicate Assembles(x: End, e: EndEvent, id: u32, data: Bytes)
  {
    && e.Hear? && e.k.Data? && e.k.id == id && Completes(x.peer, id, e.k.total, e.k.off, e.k.payload)
    && Reopened(x.peer, id, e.k.total).buf + e.k.payload == data
  }

  /** A completing chunk assembles exactly the blob its id names. */
  lemma CompletingAssembles(y: End, x: End, k: Packet)
    requires DirOk(y, x) && k in y.out && k.Data? && Completes(x.peer, k.id, k.total, k.off, k.payload)
    ensures Known(y, k.id) && Assembles(x, Hear(k), k.id, y.sent[Nth(k.id) - 1])
  {
    assert DataOk(y, k);
    ChunkExtends(y.sent[Nth(k.id) - 1], k.off);
    var data := y.sent[Nth(k.id) - 1];
    assert data[..|data|] == data;
  }

  lemma {:induction false} SentGrows(es: seq<Event>, n: nat)
    requires n <= |es|
    ensures Execute(es[..n]).l.sent <= Execute(es).l.sent
    decreases |es| - n
  {
    hide EndStep;
    if n < |es| {
      var front := es[..|es| - 1];
      assert front[..n] == es[..n];
      SentGrows(front, n);
      if es[|es| - 1].AtLeft? { EndKeepsSent(Execute(front).l, es[|es| - 1].e); }
    } else {
      assert es[..n] == es;
    }
  }

  /** Every id on record as assembled was assembled, in full, at some moment of the run. */
  lemma {:induction false} DoneHappened(es: seq<Event>, id: u32) returns (k: nat)
    requires id in Execute(es).r.done && |Execute(es).l.sent| <= IDS
    ensures k < |es| && Known(Execute(es).l, id) && es[k].AtRight?
    ensures Assembles(Execute(es[..k]).r, es[k].e, id, Execute(es).l.sent[Nth(id) - 1])
  {
    var front := es[..|es| - 1];
    RunInv(front);
    SentGrows(es, |es| - 1);
    if id in Execute(front).r.done {
      k := DoneHappened(front, id);
      assert front[..k] == es[..k];
    } else {
      k := |es| - 1;
      CompletingAssembles(Execute(front).l, Execute(front).r, es[k].e.k);
    }
  }

  /** A blob leaves the sender's queue only after the receiver, at some moment, had assembled all of it. */
  lemma RetiredAfterAssembled(es: seq<Event>, id: u32) returns (k: nat)
    requires |Execute(es).l.sent| <= IDS && Nth(id) <= Retired(Execute(es).l)
    ensures k < |es| && Known(Execute(es).l, id) && es[k].AtRight?
    ensures Assembles(Execute(es[..k]).r, es[k].e, id, Execute(es).l.sent[Nth(id) - 1])
  {
    RunInv(es);
    k := DoneHappened(es, id);
  }

  /** Blobs are completed in the order they were queued. */
  lemma CompletedInOrder(es: seq<Event>, id: u32, earlier: u32)
    requires |Execute(es).l.sent| <= IDS && id in Execute(es).r.done && Nth(earlier) <= Nth(id)
    ensures earlier in Execute(es).r.done
  {
    RunInv(es);
  }

  /** Send window: the head blob never has more than 16 chunks in flight, every offset is on a chunk boundary,
      and the guard that would pull a runaway offset back never fires. */
  lemma SendWindow(es: seq<Event>)
    requires |Execute(es).l.sent| <= IDS && Execute(es).l.peer.queue != []
    ensures var b := Execute(es).l.peer.queue[0];
            && b.unacked <= b.nextOff <= b.unacked + WINDOW * PAYLOAD
            && Aligned(b.unacked, |b.data|) && Aligned(b.nextOff, |b.data|)
            && Rewound(b, false) == b
  {
    RunInv(es);
    assert WindowOk(Execute(es).l.peer.queue[0]);
  }

  /** Everything on the wire is aligned too, and lies within the blob it names. */
  lemma WireOffsets(es: seq<Event>, k: Packet)
    requires var s := Execute(es); |s.l.sent| <= IDS && (if k.Data? then k in s.l.out else k in s.r.out && k.Ack?)
    ensures var sent := Execute(es).l.sent;
            if k.Data?
            then Nth(k.id) <= |sent| && k.off % PAYLOAD == 0 && k.off + |k.payload| <= k.total == |sent[Nth(k.id) - 1]|
            else Nth(k.ackId) <= |sent| && Aligned(k.got, |sent[Nth(k.ackId) - 1]|)
  {
    RunInv(es);
    var s := Execute(es);
    if k.Data? { assert DataOk(s.l, k); } else { assert AckOk(s.l, s.r, k); }
  }

  /** No chunk of an honest peer ever overruns the buffer. */
  lemma NeverOverruns(es: seq<Event>, k: Packet)
    requires var s := Execute(es);
             |s.l.sent| <= IDS && k in s.l.out && k.Data? && k.total <= TOTAL_MAX && !s.r.peer.failed
    ensures !Receive(Execute(es).r.peer, k).peer.failed
  {
    RunInv(es);
    DataTurn(Execute(es).l, Execute(es).r, k);
  }

  // ---- the end marker -----------------------------------------------------

  /** On a retry the pump puts something on the wire exactly when the head blob is not empty. */
  lemma RetrySendsIffNonEmpty(es: seq<Event>)
    requires var p := Execute(es).l.peer; |Execute(es).l.sent| <= IDS && !p.failed && p.queue != []
    ensures Tick(Execute(es).l.peer, true).sent != [] <==> Execute(es).l.peer.queue[0].data != []
  {
    RunInv(es);
    assert WindowOk(Execute(es).l.peer.queue[0]);
  }

  lemma EmptyHeadStays(x: End, y: End, e: EndEvent)
    requires DirOk(x, y) && x.peer.queue != [] && x.peer.queue[0].data == [] && (e.Hear? ==> e.k in y.out)
    ensures EndStep(x, e).peer.queue != [] && EndStep(x, e).peer.queue[0] == x.peer.queue[0]
  {
    if e.Hear? && e.k.Ack? { assert AckOk(x, y, e.k); }
  }

  /** An empty blob, which the interface promises as an end marker, is never sent and never retired: once it
      is at the head of the queue it stays there, and nothing queued behind it goes out. */
  lemma {:induction false} EmptyBlobBlocks(es: seq<Event>, n: nat)
    requires n <= |es| && |Execute(es).l.sent| <= IDS
    requires var x := Execute(es[..n]).l; x.peer.queue != [] && x.peer.queue[0].data == []
    ensures var head := Execute(es[..n]).l.peer.queue[0];
            var x := Execute(es).l;
            && x.peer.queue != [] && x.peer.queue[0] == head
            && (forall k :: k in x.out && k.Data? ==> Nth(k.id) < Nth(head.id))
    decreases |es| - n
  {
    RunInv(es);
    if n < |es| {
      var front := es[..|es| - 1];
      assert front[..n] == es[..n];
      SentGrows(es, |es| - 1);
      EmptyBlobBlocks(front, n);
      RunInv(front);
      var s := Execute(front);
      var ev := es[|es| - 1];
      if ev.AtLeft? && !(ev.e.Hear? && ev.e.k !in s.r.out) { EmptyHeadStays(s.l, s.r, ev.e); }
    } else {
      assert es[..n] == es;
    }
    NoDataPastEmptyHead(Execute(es).l, Execute(es).r);
  }

  lemma NoDataPastEmptyHead(x: End, y: End)
    requires DirOk(x, y) && x.peer.queue != [] && x.peer.queue[0].data == []
    ensures forall k :: k in x.out && k.Data? ==> Nth(k.id) < Nth(x.peer.queue[0].id)
  {
    forall k | k in x.out && k.Data? ensures Nth(k.id) < Nth(x.peer.queue[0].id) { assert DataOk(x, k); }
  }

  /** The end marker itself: queued on a fresh end, it is never retired, and nothing is ever sent or delivered. */
  lemma EndMarkerNeverLeaves(more: seq<Event>)
    requires |Execute([AtLeft(Queue([]))] + more).l.sent| <= IDS
    ensures var s := Execute([AtLeft(Queue([]))] + more);
            && s.l.peer.queue != [] && s.l.peer.queue[0].data == [] && s.l.peer.queue[0].id == 1
            && (forall k :: k in s.l.out ==> !k.Data?)
            && s.r.peer.ready == [] && s.r.delivered == []
  {
    var first := [AtLeft(Queue([]))];
    var es := first + more;
    assert first[..0] == [] && es[..1] == first;
    assert Execute(first) == Turn(Execute([]), AtLeft(Queue([])));
    EmptyBlobBlocks(es, 1);
    RunInv(es);
    NothingSent(es);
  }

  /** Without a chunk on the wire nothing is delivered. */
  lemma {:induction false} NothingSent(es: seq<Event>)
    requires forall k :: k in Execute(es).l.out ==> !k.Data?
    ensures Execute(es).r.peer.ready == [] && Execute(es).r.delivered == []
  {
    if es != [] {
      var s := Execute(es[..|es| - 1]);
      OutGrows(s, es[|es| - 1]);
      NothingSent(es[..|es| - 1]);
      var ev := es[|es| - 1];
      if ev.AtRight? && !(ev.e.Hear? && ev.e.k !in s.l.out) { QuietStep(s.r, ev.e); }
    }
  }

  lemma OutGrows(s: Pair, ev: Event)
    ensures s.l.out <= Turn(s, ev).l.out
  {
  }

  lemma QuietStep(x: End, e: EndEvent)
    requires x.peer.ready == [] && x.delivered == [] && !(e.Hear? && e.k.Data?)
    ensures EndStep(x, e).peer.ready == [] && EndStep(x, e).delivered == []
  {
  }

  // ---- completed is not delivered once ------------------------------------

  /** A completing chunk is always acknowledged in full; the blob reaches the ready queue exactly when that has
      room, and is lost otherwise. */
  lemma DeliveredIffReadyHasRoom(p: Peer, id: u32, total: nat, off: nat, payload: Bytes)
    requires Completes(p, id, total, off, payload)
    ensures var o := HandleData(p, id, total, off, payload);
            && o.sent == [Ack(id, off + |payload|)]
            && (o.peer.ready == p.ready + [Reopened(p, id, total).buf + payload] <==> |p.ready| < READY_MAX)
            && (|p.ready| >= READY_MAX ==> o.peer.ready == p.ready)
  {
  }

  /** The chunk is the one the receiver waits for and the last of its blob, and the ready queue has room. */
  predicate Delivering(p: Peer, k: Packet)
    requires k.Data?
  {
    k.off == |Reopened(p, k.id, k.total).buf| && k.off + |k.payload| == k.total && |p.ready| < READY_MAX
  }

  /**
   * In every reachable state, for every chunk on the wire, first time or not: hearing it changes the ready queue
   * exactly when it completes the blob there and the queue has room, and then it delivers exactly that blob.
   */
  lemma DeliversIff(es: seq<Event>, k: Packet)
    requires var s := Execute(es); |s.l.sent| <= IDS && k in s.l.out && k.Data? && k.total <= TOTAL_MAX
    ensures var s := Execute(es);
            var p' := Receive(s.r.peer, k).peer;
            && (p'.ready != s.r.peer.ready <==> Delivering(s.r.peer, k))
            && (Delivering(s.r.peer, k) ==> Known(s.l, k.id) && p'.ready == s.r.peer.ready + [s.l.sent[Nth(k.id) - 1]])
  {
    hide Execute;
    RunInv(es);
    ChunkDelivers(Execute(es).l, Execute(es).r.peer, k);
  }

  lemma ChunkDelivers(x: End, p: Peer, k: Packet)
    requires k.Data? && k.total <= TOTAL_MAX && k in x.out && AssemblyOk(x, p)
    requires forall a :: a in x.out && a.Data? ==> DataOk(x, a)
    ensures var p' := Receive(p, k).peer;
            && (p'.ready != p.ready <==> Delivering(p, k))
            && (Delivering(p, k) ==> Known(x, k.id) && p'.ready == p.ready + [x.sent[Nth(k.id) - 1]])
  {
    assert DataOk(x, k);
    var data := x.sent[Nth(k.id) - 1];
    var q := Reopened(p, k.id, k.total);
    assert AssemblyOk(x, q) && q.total == |data|;
    ChunkExtends(data, k.off);
    assert data[..|data|] == data;
    hide Chunk;
  }

  /** The only chunk of a blob, heard again, delivers the blob again exactly when the ready queue has room. */
  lemma OnlyChunkRepeats(es: seq<Event>, k: Packet)
    requires var s := Execute(es); |s.l.sent| <= IDS && k in s.l.out && k.Data? && k.total <= PAYLOAD
    ensures var s := Execute(es);
            && Known(s.l, k.id)
            && Receive(s.r.peer, k).peer.ready
               == if |s.r.peer.ready| < READY_MAX then s.r.peer.ready + [s.l.sent[Nth(k.id) - 1]] else s.r.peer.ready
  {
    hide Execute;
    RunInv(es);
    var s := Execute(es);
    assert DataOk(s.l, k) && AssemblyOk(s.l, s.r.peer);
    DeliversIff(es, k);
  }

  lemma ExecuteAppend(es: seq<Event>, ev: Event)
    ensures Execute(es + [ev]) == Turn(Execute(es), ev)
  {
    assert (es + [ev])[..|es|] == es;
  }

  /** One byte queued and pumped puts its one chunk on the wire. */
  lemma OneByteSent(s: Pair)
    requires s == Pair(NEW_END, NEW_END)
    ensures var t := Turn(Turn(s, AtLeft(Queue([7]))), AtLeft(Pump(true)));
            Data(1, 1, 0, [7]) in t.l.out && t.l.sent == [[7]] && t.r == NEW_END
  {
    var k := Data(1, 1, 0, [7]);
    var blob := Blob([7], 1, 0, 0);
    var t := Turn(s, AtLeft(Queue([7])));
    assert t.l.peer == NEW_PEER.(nextId := 1, queue := [blob]) && t.l.sent == [[7]];
    assert FillWindow(blob.(nextOff := 1)).packets == [] && Chunk([7], 0) == [7];
    assert FillWindow(blob).packets == [k];
  }

  lemma HeardOnce(p: Peer, id: u32, payload: Bytes)
    requires 0 < |payload| <= PAYLOAD && !p.active && |p.ready| < READY_MAX
    ensures var q := Receive(p, Data(id, |payload|, 0, payload)).peer;
            q.ready == p.ready + [payload] && !q.active
  {
    assert [] + payload == payload;
  }

  lemma HeardTwice(s: Pair)
    requires Data(1, 1, 0, [7]) in s.l.out && s.r == NEW_END
    ensures var c := AtRight(Hear(Data(1, 1, 0, [7])));
            var t := Turn(Turn(s, c), c);
            t.l == s.l && t.r.delivered == [[7], [7]]
  {
    var k := Data(1, 1, 0, [7]);
    HeardOnce(NEW_PEER, 1, [7]);
    HeardOnce(Receive(NEW_PEER, k).peer, 1, [7]);
    assert Receive(NEW_PEER, k).peer.ready == [[7]] by { assert [] + [7] == [7] && [] + [[7]] == [[7]]; }
    var t := Turn(s, AtRight(Hear(k)));
    assert t.r.peer == Receive(NEW_PEER, k).peer && t.r.delivered == [[7]];
  }

  lemma FourTurns(a: Event, b: Event, c: Event, d: Event)
    ensures Execute([a, b, c, d]) == Turn(Turn(Turn(Turn(Execute([]), a), b), c), d)
  {
    hide Turn;
    assert [a][..0] == [] && Execute([a]) == Turn(Execute([]), a);
    assert [a, b][..1] == [a] && Execute([a, b]) == Turn(Execute([a]), b);
    assert [a, b, c][..2] == [a, b] && Execute([a, b, c]) == Turn(Execute([a, b]), c);
    assert [a, b, c, d][..3] == [a, b, c];
  }

  /** Such a repeat in a run: one blob queued, one packet on the wire, delivered twice. */
  lemma RepeatExample()
    ensures var k := Data(1, 1, 0, [7]);
            var s := Execute([AtLeft(Queue([7])), AtLeft(Pump(true)), AtRight(Hear(k)), AtRight(Hear(k))]);
            s.l.sent == [[7]] && s.r.delivered == [[7], [7]]
  {
    assert Execute([]) == Pair(NEW_END, NEW_END);
    hide Turn, Execute;
    var a, b, c := AtLeft(Queue([7])), AtLeft(Pump(true)), AtRight(Hear(Data(1, 1, 0, [7])));
    FourTurns(a, b, c, c);
    OneByteSent(Execute([]));
    HeardTwice(Turn(Turn(Execute([]), a), b));
  }
}
