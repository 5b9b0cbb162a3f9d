/** What happens to a transfer once its 32-bit ids come round again. */
module IceXferWrap {
  import opened Common
  import opened IceXfer
  import opened IceXferProtocol
  import opened IceXferTheorems
  import opened IceXferProgress

  /** Two chunks long: a payload of one byte value, and one byte more. */
  function Long(v: byte, last: byte): (data: Bytes)
    ensures |data| == PAYLOAD + 1
  {
    seq(PAYLOAD, _ => v) + [last]
  }

  function Head(id: u32, data: Bytes): Packet
    requires |data| == PAYLOAD + 1
  {
    Data(id, PAYLOAD + 1, 0, data[..PAYLOAD])
  }

  function Rest(id: u32, data: Bytes): Packet
    requires |data| == PAYLOAD + 1
  {
    Data(id, PAYLOAD + 1, PAYLOAD, [data[PAYLOAD]])
  }

  /** Nothing under way, and `id` was the last one used. */
  ghost predicate Idle(s: Pair, id: u32)
  {
    s.l.peer == NEW_PEER.(nextId := id) && s.r.peer == NEW_PEER.(recvId := id)
  }

  function NextId(id: u32): u32 { if id == U32_MAX then 0 else id + 1 }

  lemma TwoPackets(data: Bytes, id: u32)
    requires |data| == PAYLOAD + 1
    ensures FillWindow(Blob(data, id, 0, 0))
            == Sent(Blob(data, id, 0, PAYLOAD + 1), [Head(id, data), Rest(id, data)])
  {
    var b := Blob(data, id, 0, 0);
    var b' := b.(nextOff := PAYLOAD);
    var b'' := b.(nextOff := PAYLOAD + 1);
    assert data[PAYLOAD..PAYLOAD + 1] == [data[PAYLOAD]];
    assert DataAt(b, 0) == Head(id, data) && DataAt(b', PAYLOAD) == Rest(id, data);
    assert FillWindow(b'') == Sent(b'', []);
    assert FillWindow(b') == Sent(b'', [Rest(id, data)] + []);
    assert FillWindow(b) == Sent(b'', [Head(id, data)] + ([Rest(id, data)] + []));
  }

  function Post(data: Bytes): seq<Event> { [AtLeft(Queue(data)), AtLeft(Pump(false))] }

  /** A queued blob goes out whole under the next id. */
  lemma Posted(s: Pair, id: u32, data: Bytes)
    requires Idle(s, id) && |data| == PAYLOAD + 1
    ensures var t := Resume(s, Post(data));
            && t.r == s.r && t.l.sent == s.l.sent + [data] && t.l.delivered == s.l.delivered
            && t.l.peer == NEW_PEER.(nextId := NextId(id), queue := [Blob(data, NextId(id), 0, PAYLOAD + 1)])
            && t.l.out == s.l.out + {Head(NextId(id), data), Rest(NextId(id), data)}
  {
    hide FillWindow;
    var a, b := AtLeft(Queue(data)), AtLeft(Pump(false));
    ResumeThree(s, a, b, b);
    TwoPackets(data, NextId(id));
    var blob := Blob(data, NextId(id), 0, 0);
    var s' := Turn(s, a);
    assert [] + [blob] == [blob];
    assert s'.l.peer == NEW_PEER.(nextId := NextId(id), queue := [blob]) && s'.l.sent == s.l.sent + [data];
    assert Rewound(blob, false) == blob;
  }

  function Land(k: Packet, k': Packet): seq<Event> { [AtRight(Hear(k)), AtRight(Hear(k'))] }

  /** A head and a rest under the same id are assembled, whichever blobs they come from. */
  lemma Landed(s: Pair, last: u32, id: u32, data: Bytes, other: Bytes)
    requires s.r.peer == NEW_PEER.(recvId := last) && |data| == |other| == PAYLOAD + 1
    requires Head(id, data) in s.l.out && Rest(id, other) in s.l.out
    ensures var t := Resume(s, Land(Head(id, data), Rest(id, other)));
            var mixed := data[..PAYLOAD] + [other[PAYLOAD]];
            && t.l == s.l && t.r.peer == NEW_PEER.(recvId := id, ready := [mixed])
            && t.r.delivered == s.r.delivered + [mixed] && Ack(id, PAYLOAD + 1) in t.r.out
  {
    hide Receive, Head, Rest;
    var k, k' := Head(id, data), Rest(id, other);
    ResumeThree(s, AtRight(Hear(k)), AtRight(Hear(k')), AtRight(Hear(k')));
    HeadHeard(last, id, data);
    RestHeard(id, data, other);
  }

  /** What the receiver holds after the head. */
  function HalfWay(id: u32, data: Bytes): Peer
    requires |data| == PAYLOAD + 1
  {
    NEW_PEER.(active := true, recvId := id, total := PAYLOAD + 1, buf := data[..PAYLOAD])
  }

  lemma HeadHeard(last: u32, id: u32, data: Bytes)
    requires |data| == PAYLOAD + 1
    ensures Receive(NEW_PEER.(recvId := last), Head(id, data)) == Out(HalfWay(id, data), [Ack(id, PAYLOAD)])
  {
    assert [] + data[..PAYLOAD] == data[..PAYLOAD];
  }

  lemma RestHeard(id: u32, data: Bytes, other: Bytes)
    requires |data| == |other| == PAYLOAD + 1
    ensures var mixed := data[..PAYLOAD] + [other[PAYLOAD]];
            Receive(HalfWay(id, data), Rest(id, other))
            == Out(NEW_PEER.(recvId := id, ready := [mixed]), [Ack(id, PAYLOAD + 1)])
  {
    var mixed := data[..PAYLOAD] + [other[PAYLOAD]];
    assert [] + [mixed] == [mixed];
  }

  function Close(id: u32): seq<Event> { [AtLeft(Hear(Ack(id, PAYLOAD + 1))), AtRight(Take)] }

  lemma ClosedIdle(s: Pair, id: u32, data: Bytes)
    requires |data| == PAYLOAD + 1 && Ack(id, PAYLOAD + 1) in s.r.out
    requires s.l.peer == NEW_PEER.(nextId := id, queue := [Blob(data, id, 0, PAYLOAD + 1)])
    requires s.r.peer == NEW_PEER.(recvId := id, ready := [data])
    ensures var t := Resume(s, Close(id));
            Idle(t, id) && t.l.sent == s.l.sent && t.l.out == s.l.out && t.r.delivered == s.r.delivered
  {
    var a, b := AtLeft(Hear(Ack(id, PAYLOAD + 1))), AtRight(Take);
    ResumeThree(s, a, b, b);
    assert [data][1..] == [];
    assert [Blob(data, id, 0, PAYLOAD + 1)][1..] == [];
  }

  function Round(id: u32, data: Bytes): seq<Event>
    requires |data| == PAYLOAD + 1
  {
    Post(data) + Land(Head(id, data), Rest(id, data)) + Close(id)
  }

  /** One blob queued, sent, delivered, taken and retired. */
  lemma RoundDone(s: Pair, id: u32, data: Bytes)
    requires Idle(s, id) && |data| == PAYLOAD + 1
    ensures var t := Resume(s, Round(NextId(id), data));
            && Idle(t, NextId(id)) && t.l.sent == s.l.sent + [data] && s.l.out <= t.l.out
            && Rest(NextId(id), data) in t.l.out
  {
    hide Resume, Post, Land, Close;
    var id' := NextId(id);
    var a, b, c := Post(data), Land(Head(id', data), Rest(id', data)), Close(id');
    Posted(s, id, data);
    var s1 := Resume(s, a);
    Landed(s1, id, id', data, data);
    assert data[..PAYLOAD] + [data[PAYLOAD]] == data;
    var s2 := Resume(s1, b);
    ClosedIdle(s2, id', data);
    ResumeConcat(s, a, b);
    ResumeConcat(s, a + b, c);
  }

  // ---- a whole cycle of ids -----------------------------------------------

  function IdOf(n: nat): u32 { n % IDS }

  function Rounds(n: nat, data: Bytes): seq<Event>
    requires |data| == PAYLOAD + 1
  {
    if n == 0 then [] else Rounds(n - 1, data) + Round(IdOf(n), data)
  }

  lemma NextIdOf(n: nat)
    ensures IdOf(n + 1) == NextId(IdOf(n))
  {
  }

  /** The same blob sent over and over leaves everything idle and its first chunks on the wire. */
  lemma {:induction false} RoundsDone(n: nat, data: Bytes)
    requires |data| == PAYLOAD + 1
    ensures var s := Execute(Rounds(n, data));
            && Idle(s, IdOf(n)) && |s.l.sent| == n && (forall i :: 0 <= i < n ==> s.l.sent[i] == data)
            && (n > 0 ==> Rest(1, data) in s.l.out)
  {
    hide Execute, Round, Resume, Rest, IdOf;
    if n == 0 {
      assert Execute([]) == Pair(NEW_END, NEW_END) && IdOf(0) == 0 by { Beginning(); }
    } else {
      RoundsDone(n - 1, data);
      NextIdOf(n - 1);
      var before := Rounds(n - 1, data);
      RoundDone(Execute(before), IdOf(n - 1), data);
      ExecuteResumes(before, Round(IdOf(n), data));
      if n == 1 { assert IdOf(1) == 1 by { Beginning(); } }
    }
  }

  lemma Beginning()
    ensures Execute([]) == Pair(NEW_END, NEW_END) && IdOf(0) == 0 && IdOf(1) == 1 && IdOf(IDS) == 0
  {
  }

  // ---- the collision ------------------------------------------------------

  const OLD := Long(0, 7)
  const NEW := Long(1, 1)
  const MIXED := Long(1, 7)

  lemma Mixture()
    ensures NEW[..PAYLOAD] + [OLD[PAYLOAD]] == MIXED && MIXED != OLD && MIXED != NEW
  {
    assert MIXED[0] == 1 && OLD[0] == 0 && MIXED[PAYLOAD] == 7 && NEW[PAYLOAD] == 1;
  }

  /**
   * One blob after the ids came round: its head and the rest of the first blob, which the network kept, carry the
   * same id. The receiver delivers a blob that nobody queued.
   */
  lemma WrapMixes() returns (es: seq<Event>)
    ensures var s := Execute(es); |s.l.sent| == IDS + 1 && !Genuine(s.l, s.r.delivered)
  {
    es := MixesAfter(IDS);
  }

  lemma MixesAfter(n: nat) returns (es: seq<Event>)
    requires n > 0 && IdOf(n) == 0
    ensures var s := Execute(es); |s.l.sent| == n + 1 && !Genuine(s.l, s.r.delivered)
  {
    hide Execute, Resume, Rounds, Post, Land, Head, Rest;
    var cycle := Rounds(n, OLD);
    RoundsDone(n, OLD);
    var s := Execute(cycle);
    Posted(s, 0, NEW);
    var s1 := Resume(s, Post(NEW));
    Landed(s1, 0, 1, NEW, OLD);
    var land := Land(Head(1, NEW), Rest(1, OLD));
    ExecuteResumes(cycle, Post(NEW));
    ExecuteResumes(cycle + Post(NEW), land);
    es := cycle + Post(NEW) + land;
    Mixture();
    var t := Execute(es);
    assert t.r.delivered[|t.r.delivered| - 1] == MIXED && MIXED !in t.l.sent;
  }

  /** Integrity holds of every run with at most so many blobs exactly while the ids have not come round. */
  lemma IntegrityIff(n: nat)
    ensures (forall es: seq<Event> :: |Execute(es).l.sent| <= n ==> Genuine(Execute(es).l, Execute(es).r.delivered))
            <==> n <= IDS
  {
    if n <= IDS {
      forall es: seq<Event> | |Execute(es).l.sent| <= n ensures Genuine(Execute(es).l, Execute(es).r.delivered) {
        TransferIntegrity(es);
      }
    } else {
      var es := WrapMixes();
      assert |Execute(es).l.sent| <= n;
    }
  }
}
