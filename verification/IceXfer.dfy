/** Reliable blob transfer: a go-back-N sender and a receiver, as functions on the value of one end. */
module IceXfer {
  import opened Common

  const PAYLOAD := 1024
  const WINDOW := 16
  const SEND_MAX := 16
  const READY_MAX := 4
  const TOTAL_MAX := 0x7FFF_FFFF_FFFF_FFFF

  type Bytes = seq<byte>

  datatype Blob = Blob(data: Bytes, id: u32, unacked: nat, nextOff: nat)

  /** One end of a transfer. `buf` is the part of the inbound blob assembled so far. */
  datatype Peer = Peer(nextId: u32, queue: seq<Blob>,
                       active: bool, recvId: u32, total: nat, buf: Bytes,
                       ready: seq<Bytes>, failed: bool)

  const NEW_PEER := Peer(0, [], false, 0, 0, [], [], false)

  datatype Packet = Data(id: u32, total: nat, off: nat, payload: Bytes) | Ack(ackId: u32, got: nat) | Fail

  datatype Out = Out(peer: Peer, sent: seq<Packet>)

  function Min(a: nat, b: nat): nat { if a < b then a else b }

  /** The chunk of `data` that goes out at `off`. */
  function Chunk(data: Bytes, off: nat): (c: Bytes)
    requires off <= |data|
    ensures |c| == Min(PAYLOAD, |data| - off)
  {
    data[off..off + Min(PAYLOAD, |data| - off)]
  }

  function DataAt(b: Blob, off: nat): Packet
    requires off <= |b.data|
  {
    Data(b.id, |b.data|, off, Chunk(b.data, off))
  }

  datatype Sent = Sent(blob: Blob, packets: seq<Packet>)

  /** The send loop: chunks go out until the blob or the window is exhausted. */
  function FillWindow(b: Blob): (r: Sent)
    ensures r.blob == b.(nextOff := r.blob.nextOff) && b.nextOff <= r.blob.nextOff
    decreases |b.data| - b.nextOff
  {
    if b.nextOff < |b.data| && b.nextOff < b.unacked + WINDOW * PAYLOAD then
      var r := FillWindow(b.(nextOff := b.nextOff + Min(PAYLOAD, |b.data| - b.nextOff)));
      Sent(r.blob, [DataAt(b, b.nextOff)] + r.packets)
    else Sent(b, [])
  }

  /** The window guard and the go-back on a retry. */
  function Rewound(b: Blob, elapsed: bool): Blob
  {
    if b.nextOff > b.unacked + WINDOW * PAYLOAD || (elapsed && b.nextOff > b.unacked)
    then b.(nextOff := b.unacked) else b
  }

  /** The sending half of the pump; `elapsed` says the retry timer has run out. */
  function Tick(p: Peer, elapsed: bool): Out
  {
    if p.failed || p.queue == [] || p.queue[0].unacked >= |p.queue[0].data| then Out(p, [])
    else
      var r := FillWindow(Rewound(p.queue[0], elapsed));
      Out(p.(queue := [r.blob] + p.queue[1..]), r.packets)
  }

  function HandleAck(p: Peer, id: u32, got: nat): Peer
  {
    if p.queue == [] || p.queue[0].id != id || got < p.queue[0].unacked then p
    else
      var b := p.queue[0].(unacked := got, nextOff := if got > p.queue[0].nextOff then got else p.queue[0].nextOff);
      p.(queue := if b.unacked >= |b.data| then p.queue[1..] else [b] + p.queue[1..])
  }

  function PushReady(ready: seq<Bytes>, data: Bytes): seq<Bytes>
  {
    if |ready| >= READY_MAX then ready else ready + [data]
  }

  /** A chunk for another blob than the active one starts that blob afresh. */
  function Reopened(p: Peer, id: u32, total: nat): Peer
  {
    if !p.active || p.recvId != id then p.(active := true, recvId := id, total := total, buf := []) else p
  }

  function HandleData(p: Peer, id: u32, total: nat, off: nat, payload: Bytes): Out
  {
    if total > TOTAL_MAX then Out(p.(failed := true), [])
    else
      var q := Reopened(p, id, total);
      if off != |q.buf| then Out(q, [Ack(id, |q.buf|)])
      else if payload != [] && off + |payload| > q.total then Out(q.(failed := true), [])
      else
        var buf := q.buf + payload;
        Out(if |buf| >= q.total
            then q.(ready := PushReady(q.ready, buf), active := false, buf := [], total := 0)
            else q.(buf := buf),
            [Ack(id, |buf|)])
  }

  /** The chunk completes a blob: the last byte that was missing arrives. */
  predicate Completes(p: Peer, id: u32, total: nat, off: nat, payload: Bytes)
  {
    var q := Reopened(p, id, total);
    total <= TOTAL_MAX && off == |q.buf| && off + |payload| == q.total
  }

  function Receive(p: Peer, k: Packet): Out
  {
    match k
    case Data(id, total, off, payload) => HandleData(p, id, total, off, payload)
    case Ack(id, got) => Out(HandleAck(p, id, got), [])
    case Fail => Out(p.(failed := true), [])
  }

  /** queue_blob: refused after a failure or with a full queue; ids wrap at 2^32. */
  function Enqueue(p: Peer, data: Bytes): Peer
  {
    if p.failed || |p.queue| >= SEND_MAX then p
    else
      var id := if p.nextId == U32_MAX then 0 else p.nextId + 1;
      p.(nextId := id, queue := p.queue + [Blob(data, id, 0, 0)])
  }

  function TakeReady(p: Peer): Peer
  {
    if p.ready == [] then p else p.(ready := p.ready[1..])
  }
}

/** The same end as an object updated in place. */
module IceXferObject {
  import opened Common
  import opened IceXfer

  /** The packets of a list handled one after another. */
  function ReceiveAll(p: Peer, ks: seq<Packet>): Out
  {
    if ks == [] then Out(p, [])
    else
      var q := ReceiveAll(p, ks[..|ks| - 1]);
      var o := Receive(q.peer, ks[|ks| - 1]);
      Out(o.peer, q.sent + o.sent)
  }

  class Xfer {
    var nextId: u32
    var queue: seq<Blob>
    var active: bool
    var recvId: u32
    var recvTotal: nat
    var recvGot: nat
    var recvBuf: array<byte>
    var ready: seq<Bytes>
    var failed: bool
    var outbox: seq<Packet>

    ghost predicate Valid()
      reads this
    {
      recvGot <= recvBuf.Length && (active ==> recvBuf.Length == recvTotal) && (!active ==> recvGot == 0)
    }

    ghost function View(): Peer
      requires Valid()
      reads this, recvBuf
    {
      Peer(nextId, queue, active, recvId, recvTotal, recvBuf[..recvGot], ready, failed)
    }

    constructor ()
      ensures Valid() && View() == NEW_PEER && outbox == [] && fresh(recvBuf)
    {
      nextId, queue, active, recvId, recvTotal, recvGot := 0, [], false, 0, 0, 0;
      recvBuf := new byte[0];
      ready, failed, outbox := [], false, [];
    }

    method QueueBlob(data: Bytes) returns (rc: int)
      requires Valid()
      modifies this
      ensures Valid() && View() == Enqueue(old(View()), data) && outbox == old(outbox) && recvBuf == old(recvBuf)
      ensures rc == 0 <==> View() != old(View())
    {
      if failed || |queue| >= SEND_MAX { return -1; }
      nextId := if nextId == U32_MAX then 0 else nextId + 1;
      queue := queue + [Blob(data, nextId, 0, 0)];
      return 0;
    }

    method TakeBlob() returns (out: Option<Bytes>)
      requires Valid()
      modifies this
      ensures Valid() && View() == TakeReady(old(View())) && outbox == old(outbox) && recvBuf == old(recvBuf)
      ensures out == if old(ready) == [] then None else Some(old(ready)[0])
    {
      if ready == [] { return None; }
      out := Some(ready[0]);
      ready := ready[1..];
    }

    /** rnet_ice_xfer_fail. */
    method Abort()
      requires Valid()
      modifies `failed, `outbox
      ensures Valid() && View() == old(View()).(failed := true) && outbox == old(outbox) + [Packet.Fail]
    {
      failed := true;
      outbox := outbox + [Packet.Fail];
    }

    /** handle_ack. */
    method OnAck(id: u32, got: nat)
      requires Valid()
      modifies `queue
      ensures Valid() && View() == HandleAck(old(View()), id, got)
    {
      if queue == [] { return; }
      var b := queue[0];
      if b.id != id || got < b.unacked { return; }
      b := b.(unacked := got);
      if got > b.nextOff { b := b.(nextOff := got); }
      queue := [b] + queue[1..];
      if b.unacked >= |b.data| { queue := queue[1..]; }
    }

    /** The start of handle_data: a fresh buffer for a blob that is not the active one. */
    method OpenBlob(id: u32, total: nat)
      requires Valid()
      modifies this
      ensures Valid() && active && recvId == id && (recvBuf == old(recvBuf) || fresh(recvBuf))
      ensures View() == Reopened(old(View()), id, total) && outbox == old(outbox)
    {
      if !active || recvId != id {
        recvGot, recvTotal, recvId, active := 0, total, id, true;
        recvBuf := new byte[total](_ => 0);
      }
    }

    /** The end of handle_data: a complete blob moves to the ready queue, or is dropped when that is full. */
    method FinishBlob()
      requires Valid() && active
      modifies this
      ensures Valid() && outbox == old(outbox) && (recvBuf == old(recvBuf) || fresh(recvBuf))
      ensures var q := old(View());
              View() == if |q.buf| >= q.total
                        then q.(ready := PushReady(q.ready, q.buf), active := false, buf := [], total := 0) else q
    {
      if recvGot >= recvTotal {
        assert recvBuf[..] == recvBuf[..recvGot];
        if |ready| < READY_MAX { ready := ready + [recvBuf[..]]; }
        recvBuf := new byte[0];
        active, recvGot, recvTotal := false, 0, 0;
      }
    }

    /** handle_data: the payload is copied into the inbound buffer in place. */
    method OnData(id: u32, total: nat, off: nat, payload: Bytes)
      requires Valid()
      modifies this, recvBuf
      ensures Valid() && (recvBuf == old(recvBuf) || fresh(recvBuf))
      ensures View() == HandleData(old(View()), id, total, off, payload).peer
      ensures outbox == old(outbox) + HandleData(old(View()), id, total, off, payload).sent
    {
      if total > TOTAL_MAX { failed := true; return; }
      OpenBlob(id, total);
      ghost var q := View();
      if off != recvGot { outbox := outbox + [Ack(id, recvGot)]; return; }
      if |payload| > 0 {
        if off + |payload| > recvTotal { failed := true; return; }
        CopyIn(payload);
      }
      assert View() == q.(buf := q.buf + payload);
      outbox := outbox + [Ack(id, recvGot)];
      FinishBlob();
    }

    /** memcpy of a payload behind what has been received. */
    method CopyIn(payload: Bytes)
      requires Valid() && active && recvGot + |payload| <= recvTotal
      modifies `recvGot, recvBuf
      ensures Valid() && recvBuf[..recvGot] == old(recvBuf[..recvGot]) + payload
      ensures recvGot == old(recvGot) + |payload|
    {
      var i := 0;
      while i < |payload|
        invariant 0 <= i <= |payload| && recvGot == old(recvGot)
        invariant recvBuf[..recvGot + i] == old(recvBuf[..recvGot]) + payload[..i]
        modifies recvBuf
      {
        recvBuf[recvGot + i] := payload[i];
        i := i + 1;
      }
      assert payload[..i] == payload;
      recvGot := recvGot + |payload|;
    }

    method OnPacket(k: Packet)
      requires Valid()
      modifies this, recvBuf
      ensures Valid() && (recvBuf == old(recvBuf) || fresh(recvBuf))
      ensures View() == Receive(old(View()), k).peer && outbox == old(outbox) + Receive(old(View()), k).sent
    {
      match k
      case Data(id, total, off, payload) => OnData(id, total, off, payload);
      case Ack(id, got) => OnAck(id, got);
      case Fail => failed := true;
    }

    /** The send loop. */
    method SendChunks(start: Blob) returns (b: Blob)
      modifies `outbox
      ensures b == FillWindow(start).blob && outbox == old(outbox) + FillWindow(start).packets
    {
      b := start;
      while b.nextOff < |b.data| && b.nextOff < b.unacked + WINDOW * PAYLOAD
        invariant FillWindow(start).blob == FillWindow(b).blob
        invariant outbox + FillWindow(b).packets == old(outbox) + FillWindow(start).packets
        decreases |b.data| - b.nextOff
      {
        ghost var k := DataAt(b, b.nextOff);
        ghost var next := b.(nextOff := b.nextOff + Min(PAYLOAD, |b.data| - b.nextOff));
        assert (outbox + [k]) + FillWindow(next).packets == outbox + ([k] + FillWindow(next).packets);
        outbox := outbox + [DataAt(b, b.nextOff)];
        b := b.(nextOff := b.nextOff + Min(PAYLOAD, |b.data| - b.nextOff));
      }
    }

    /** The sending half of rnet_ice_xfer_pump. */
    method SendWindow(elapsed: bool)
      requires Valid()
      modifies `queue, `outbox
      ensures Valid() && View() == Tick(old(View()), elapsed).peer
      ensures outbox == old(outbox) + Tick(old(View()), elapsed).sent
    {
      if failed || queue == [] { return; }
      var b := queue[0];
      if b.unacked >= |b.data| { return; }
      if b.nextOff > b.unacked + WINDOW * PAYLOAD { b := b.(nextOff := b.unacked); }
      if elapsed && b.nextOff > b.unacked { b := b.(nextOff := b.unacked); }
      b := SendChunks(b);
      queue := [b] + queue[1..];
    }

    /** rnet_ice_xfer_pump on a connected path. */
    method Pump(inbox: seq<Packet>, elapsed: bool)
      requires Valid()
      modifies this, recvBuf
      ensures Valid() && (recvBuf == old(recvBuf) || fresh(recvBuf))
      ensures var o := if old(failed) then Out(old(View()), []) else ReceiveAll(old(View()), inbox);
              var t := Tick(o.peer, elapsed);
              View() == t.peer && outbox == old(outbox) + o.sent + t.sent
    {
      hide FillWindow, HandleData, HandleAck;
      if failed { return; }
      var i := 0;
      while i < |inbox|
        invariant 0 <= i <= |inbox| && Valid() && (recvBuf == old(recvBuf) || fresh(recvBuf))
        invariant View() == ReceiveAll(old(View()), inbox[..i]).peer
        invariant outbox == old(outbox) + ReceiveAll(old(View()), inbox[..i]).sent
      {
        hide Receive;
        assert inbox[..i + 1][..i] == inbox[..i];
        OnPacket(inbox[i]);
        i := i + 1;
      }
      assert inbox[..i] == inbox;
      SendWindow(elapsed);
    }
  }
}
