/** A sending buffer and a reader at the two ends of one socket: what is said is what is heard. */
module WsDrive {
  import opened Common
  import opened WsFrame
  import opened WsTx
  import opened WsRx

  /** A text is queued, a flush meets what the socket does, or the reader receives in pieces of these sizes. */
  datatype Step = Utter(text: Text, noMemory: bool) | Push(script: seq<SendResult>) | Hear(sizes: seq<nat>)

  /** The texts of the queue calls that returned 0, in order. */
  function Said(steps: seq<Step>, rcs: seq<int>): seq<Text>
    requires |steps| == |rcs|
  {
    if steps == [] then []
    else
      var n := |steps| - 1;
      Said(steps[..n], rcs[..n]) + if steps[n].Utter? && rcs[n] == 0 then [steps[n].text] else []
  }

  /** A text is accepted, or refused for a full backlog or for lack of memory. */
  predicate Answered(step: Step, rc: int)
  {
    step.Utter? ==> rc in {0, -2, -3} && (rc == -3 ==> step.noMemory)
  }

  lemma SaidNext(steps: seq<Step>, rcs: seq<int>, rc: int)
    requires |rcs| < |steps|
    ensures var i := |rcs|;
            Said(steps[..i + 1], rcs + [rc])
            == Said(steps[..i], rcs) + if steps[i].Utter? && rc == 0 then [steps[i].text] else []
  {
    var i := |rcs|;
    assert steps[..i + 1][..i] == steps[..i] && (rcs + [rc])[..i] == rcs;
  }

  /** Every text fits the reader's buffer with its header. */
  predicate Fit(texts: seq<Text>)
  {
    forall i :: 0 <= i < |texts| ==> |texts[i]| <= BUFFER - 4
  }

  lemma EncodedNext(texts: seq<Text>, text: Text)
    requires Fit(texts) && |text| <= BUFFER - 4
    ensures Fit(texts + [text]) && Encoded(texts + [text]) == Encoded(texts) + [Frame(text, None)]
  {
    hide Frame;
  }

  /** Receiving in two rounds is receiving all the chunks in one. */
  lemma {:induction false} FeedConcat(chunks: seq<seq<byte>>, more: seq<seq<byte>>)
    ensures var p := Feed([], chunks);
            var d := Feed(p.rest, more);
            Feed([], chunks + more).rest == d.rest && Feed([], chunks + more).texts == p.texts + d.texts
  {
    hide Drain, Feed;
    if more == [] {
      assert chunks + more == chunks;
      FeedNone(Feed([], chunks).rest);
    } else {
      var front, last := more[..|more| - 1], more[|more| - 1];
      FeedConcat(chunks, front);
      assert chunks + more == (chunks + front) + [last] && more == front + [last];
      FeedSnoc([], chunks + front, last);
      FeedSnoc(Feed([], chunks).rest, front, last);
    }
  }

  /** Where the two ends are: the reader has received the first `got` bytes of the wire, in these chunks. */
  ghost predicate Linked(said: seq<Text>, frames: seq<seq<byte>>, wire: seq<byte>, pending: seq<byte>, got: nat,
                         chunks: seq<seq<byte>>, rest: seq<byte>, handled: seq<Text>)
  {
    && Fit(said) && frames == Encoded(said) && wire + pending == Concat(frames)
    && got <= |wire| && Concat(chunks) == wire[..got]
    && rest == Feed([], chunks).rest && handled == Feed([], chunks).texts
  }

  /** What the reader has handed on is a prefix of what was said, all of it once everything arrived, and its buffer
      has room. */
  lemma LinkedHears(said: seq<Text>, frames: seq<seq<byte>>, wire: seq<byte>, pending: seq<byte>, got: nat,
                    chunks: seq<seq<byte>>, rest: seq<byte>, handled: seq<Text>)
    requires Linked(said, frames, wire, pending, got, chunks, rest, handled)
    ensures |rest| < BUFFER && handled <= said
    ensures got == |wire| && pending == [] ==> handled == said && rest == []
  {
    hide Concat, Feed, Frame, Good;
    EncodedTexts(said);
    assert wire[..got] <= wire + pending;
    if got == |wire| && pending == [] { assert wire[..got] == wire == wire + pending; }
    ChunkIndependent(frames, chunks);
  }

  /** The reader receives more of the wire. */
  lemma LinkedReceives(said: seq<Text>, frames: seq<seq<byte>>, wire: seq<byte>, pending: seq<byte>, got: nat,
                       chunks: seq<seq<byte>>, rest: seq<byte>, handled: seq<Text>, taken: nat, more: seq<seq<byte>>)
    requires Linked(said, frames, wire, pending, got, chunks, rest, handled)
    requires taken <= |wire| - got && Concat(more) == wire[got..][..taken]
    ensures Linked(said, frames, wire, pending, got + taken, chunks + more, Feed(rest, more).rest,
                   handled + Feed(rest, more).texts)
  {
    hide Concat, Feed, Frame;
    ConcatAppend(chunks, more);
    assert wire[..got] + wire[got..][..taken] == wire[..got + taken];
    FeedConcat(chunks, more);
  }

  /** The socket takes more bytes, or a frame was refused. */
  lemma LinkedSends(said: seq<Text>, frames: seq<seq<byte>>, wire: seq<byte>, pending: seq<byte>, got: nat,
                    chunks: seq<seq<byte>>, rest: seq<byte>, handled: seq<Text>, wire': seq<byte>, pending': seq<byte>)
    requires Linked(said, frames, wire, pending, got, chunks, rest, handled)
    requires wire <= wire' && wire' + pending' == Concat(frames)
    ensures Linked(said, frames, wire', pending', got, chunks, rest, handled)
  {
    hide Concat, Feed, Frame, Encoded;
    assert wire[..got] == wire'[..got];
  }

  /** One more text is accepted. */
  lemma LinkedSays(said: seq<Text>, frames: seq<seq<byte>>, wire: seq<byte>, pending: seq<byte>, got: nat,
                   chunks: seq<seq<byte>>, rest: seq<byte>, handled: seq<Text>, text: Text, pending': seq<byte>)
    requires Linked(said, frames, wire, pending, got, chunks, rest, handled) && |text| <= BUFFER - 4
    requires wire + pending' == Concat(frames + [Frame(text, None)])
    ensures Linked(said + [text], frames + [Frame(text, None)], wire, pending', got, chunks, rest, handled)
  {
    hide Concat, Feed, Frame, Encoded;
    EncodedNext(said, text);
  }

  lemma NothingLinked()
    ensures Linked([], [], [], [], 0, [], [], [])
  {
  }

  // ---- how much gets through ----------------------------------------------

  /** How many bytes the pushes among steps a..i let the socket take. */
  function Pushed(steps: seq<Step>, a: nat, i: nat): nat
    requires a <= i <= |steps|
  {
    if i == a then 0
    else Pushed(steps, a, i - 1)
         + match steps[i - 1] case Push(script) => Offered(script, StopAt(script)) case _ => 0
  }

  /** How many bytes recvs of these sizes bring in, at most `room` each, up to the first that finds nothing. */
  function Gathered(sizes: seq<nat>, room: nat): nat
  {
    if sizes == [] || sizes[0] == 0 then 0 else Least(sizes[0], room) + Gathered(sizes[1..], room)
  }

  /** The same for the hears among steps b..i. */
  function HeardIn(steps: seq<Step>, b: nat, i: nat, room: nat): nat
    requires b <= i <= |steps|
  {
    if i == b then 0
    else HeardIn(steps, b, i - 1, room)
         + match steps[i - 1] case Hear(sizes) => Gathered(sizes, room) case _ => 0
  }

  /** Nothing more is said from step a on. */
  predicate Quiet(steps: seq<Step>, a: nat, i: nat)
    requires a <= i <= |steps|
  {
    forall k :: a <= k < i ==> !steps[k].Utter?
  }

  /** Every text is at most `longest` bytes long. */
  predicate AtMost(texts: seq<Text>, longest: nat)
  {
    forall i :: 0 <= i < |texts| ==> |texts[i]| <= longest
  }

  /** What waits in the reader is less than one frame. */
  lemma RestIsShort(said: seq<Text>, frames: seq<seq<byte>>, wire: seq<byte>, pending: seq<byte>, got: nat,
                    chunks: seq<seq<byte>>, rest: seq<byte>, handled: seq<Text>, longest: nat)
    requires Linked(said, frames, wire, pending, got, chunks, rest, handled) && AtMost(said, longest)
    ensures |rest| <= longest + 3 && Feed([], chunks).status == Open
  {
    hide Concat, Feed, Frame, Good;
    EncodedTexts(said);
    assert wire[..got] <= wire + pending;
    ChunkIndependent(frames, chunks);
    PrefixDrains(frames, got);
    assert Concat(chunks) == Concat(frames)[..got];
    if rest != [] {
      var k :| 0 <= k < |frames| && |rest| < |frames[k]|;
      FrameSize(said[k], None);
      UnmaskedSize(said[k]);
    }
  }

  lemma UnmaskedSize(text: Text)
    requires |text| < TEXT_MAX
    ensures |Frame(text, None)| <= |text| + 4
  {
  }

  /** A receive loop on good frames never ends early: it takes all the sizes allow. */
  lemma {:induction false} ReceiveGathers(said: seq<Text>, frames: seq<seq<byte>>, wire: seq<byte>, pending: seq<byte>,
                                          got: nat, chunks: seq<seq<byte>>, rest: seq<byte>, handled: seq<Text>,
                                          longest: nat, sizes: seq<nat>, more: seq<seq<byte>>, i: nat)
    requires Linked(said, frames, wire, pending, got, chunks, rest, handled) && AtMost(said, longest)
    requires longest <= BUFFER - 4 && i <= |more| && got <= |wire|
    requires Going(rest, wire[got..], sizes, more) && Concat(more) <= wire[got..]
    ensures |Concat(more[..i])| + Least(|wire| - got, Gathered(sizes[i..], BUFFER - longest - 3))
            >= Least(|wire| - got, Gathered(sizes, BUFFER - longest - 3))
  {
    hide Concat, Feed, Frame, Linked, Gathered;
    if i == 0 {
      assert sizes[0..] == sizes;
    } else {
      ReceiveGathers(said, frames, wire, pending, got, chunks, rest, handled, longest, sizes, more, i - 1);
      ChunkIsLarge(said, frames, wire, pending, got, chunks, rest, handled, longest, sizes, more, i - 1);
      ConcatAt(more, i - 1);
      GatheredNext(sizes, i - 1, BUFFER - longest - 3);
    }
  }

  lemma GatheredNext(sizes: seq<nat>, i: nat, room: nat)
    requires i < |sizes|
    ensures Gathered(sizes[i..], room) <= Least(sizes[i], room) + Gathered(sizes[i + 1..], room)
  {
    assert sizes[i..][1..] == sizes[i + 1..];
  }

  /** Each recv takes what the socket has ready, up to the room a waiting frame leaves, unless nothing is left. */
  lemma ChunkIsLarge(said: seq<Text>, frames: seq<seq<byte>>, wire: seq<byte>, pending: seq<byte>,
                     got: nat, chunks: seq<seq<byte>>, rest: seq<byte>, handled: seq<Text>,
                     longest: nat, sizes: seq<nat>, more: seq<seq<byte>>, i: nat)
    requires Linked(said, frames, wire, pending, got, chunks, rest, handled) && AtMost(said, longest)
    requires longest <= BUFFER - 4 && i < |more| && got <= |wire|
    requires Going(rest, wire[got..], sizes, more) && Concat(more) <= wire[got..]
    ensures |more[i]| >= Least(sizes[i], BUFFER - longest - 3) || |Concat(more[..i])| + |more[i]| >= |wire| - got
  {
    hide Concat, Feed, Frame, Linked;
    var front := more[..i];
    ConcatSplit(more, i);
    var taken := |Concat(front)|;
    assert Concat(front) == Concat(more)[..taken] == wire[got..][..taken];
    LinkedReceives(said, frames, wire, pending, got, chunks, rest, handled, taken, front);
    RestIsShort(said, frames, wire, pending, got + taken, chunks + front, Feed(rest, front).rest,
                handled + Feed(rest, front).texts, longest);
    assert |more[i]| == Offer(rest, wire[got..], sizes, front);
  }

  /** A hear brings in all its sizes allow, or everything that was sent. */
  lemma HearCovers(said: seq<Text>, frames: seq<seq<byte>>, wire: seq<byte>, pending: seq<byte>, got: nat,
                   chunks: seq<seq<byte>>, rest: seq<byte>, handled: seq<Text>,
                   longest: nat, sizes: seq<nat>, more: seq<seq<byte>>, ended: Ended)
    requires Linked(said, frames, wire, pending, got, chunks, rest, handled) && AtMost(said, longest)
    requires longest <= BUFFER - 4 && got <= |wire| && Received(rest, wire[got..], sizes, more, ended)
    ensures |Concat(more)| >= Least(|wire| - got, Gathered(sizes, BUFFER - longest - 3))
  {
    hide Concat, Feed, Frame, Linked, Gathered, Going;
    var n := |more|;
    assert more[..n] == more;
    GoingFits(rest, wire[got..], sizes, more);
    ReceiveGathers(said, frames, wire, pending, got, chunks, rest, handled, longest, sizes, more, n);
    assert Concat(more) == wire[got..][..|Concat(more)|];
    LinkedReceives(said, frames, wire, pending, got, chunks, rest, handled, |Concat(more)|, more);
    RestIsShort(said, frames, wire, pending, got + |Concat(more)|, chunks + more, Feed(rest, more).rest,
                handled + Feed(rest, more).texts, longest);
    LinkedRest(said, frames, wire, pending, got, chunks, rest, handled);
    FeedStatus(chunks, more);
    FeedNone(rest);
    if |Concat(more)| < |wire| - got { NothingGathered(sizes, n, BUFFER - longest - 3); }
  }

  lemma LinkedRest(said: seq<Text>, frames: seq<seq<byte>>, wire: seq<byte>, pending: seq<byte>, got: nat,
                   chunks: seq<seq<byte>>, rest: seq<byte>, handled: seq<Text>)
    requires Linked(said, frames, wire, pending, got, chunks, rest, handled)
    ensures rest == Feed([], chunks).rest && |wire| + |pending| == |Concat(frames)| && frames == Encoded(said)
  {
  }

  lemma GoingFits(start: seq<byte>, input: seq<byte>, sizes: seq<nat>, chunks: seq<seq<byte>>)
    requires Going(start, input, sizes, chunks)
    ensures |chunks| <= |sizes|
  {
  }

  lemma NothingGathered(sizes: seq<nat>, n: nat, room: nat)
    requires n <= |sizes| && (n == |sizes| || sizes[n] == 0)
    ensures Gathered(sizes[n..], room) == 0
  {
  }

  /** The status after two rounds is the status after the second. */
  lemma FeedStatus(chunks: seq<seq<byte>>, more: seq<seq<byte>>)
    ensures more != [] ==> Feed(Feed([], chunks).rest, more).status == Feed([], chunks + more).status
  {
    hide Drain, Feed;
    if more != [] {
      var front, last := more[..|more| - 1], more[|more| - 1];
      FeedConcat(chunks, front);
      assert chunks + more == (chunks + front) + [last] && more == front + [last];
      FeedSnoc([], chunks + front, last);
      FeedSnoc(Feed([], chunks).rest, front, last);
    }
  }

  // ---- the objects --------------------------------------------------------

  /** How far pushes since step a and hears since step b have brought the bytes, while nothing more is said. */
  ghost predicate Covered(steps: seq<Step>, a: nat, b: nat, room: nat, i: nat, total: nat, sent: nat, got: nat)
    requires a <= b <= |steps| && i <= |steps|
  {
    && (a <= i <= b && Quiet(steps, a, i) ==> sent >= Least(total, Pushed(steps, a, i)))
    && (b <= i && Quiet(steps, a, i) && Pushed(steps, a, b) >= total ==>
          sent == total && got >= Least(total, HeardIn(steps, b, i, room)))
  }

  lemma CoveredStart(steps: seq<Step>, a: nat, b: nat, room: nat, i: nat, total: nat, sent: nat, got: nat)
    requires a <= b <= |steps| && i <= |steps| && sent <= total
    requires i < a || i == a
    ensures Covered(steps, a, b, room, i, total, sent, got)
  {
  }

  /** One more step keeps the account: what a push sends and a hear brings in is what the two sums count. */
  lemma CoveredNext(steps: seq<Step>, a: nat, b: nat, room: nat, i: nat, total: nat, sent: nat, got: nat,
                    total': nat, sent': nat, got': nat)
    requires a <= b <= |steps| && i < |steps| && Covered(steps, a, b, room, i, total, sent, got)
    requires sent <= sent' <= total' && got <= got' <= sent' && sent <= total
    requires !steps[i].Utter? ==> total' == total
    requires steps[i].Push? ==> sent' == sent + Reach(steps[i].script, total - sent)
    requires steps[i].Hear? ==> sent' == sent && got' >= got + Least(sent - got, Gathered(steps[i].sizes, room))
    ensures Covered(steps, a, b, room, i + 1, total', sent', got')
  {
    hide Gathered, Offered, StopAt;
    if i + 1 <= a { CoveredStart(steps, a, b, room, i + 1, total', sent', got'); }
    else if Quiet(steps, a, i + 1) {
      assert Quiet(steps, a, i);
      if i < b { assert Pushed(steps, a, i + 1) >= Pushed(steps, a, i); }
    }
  }

  /** A sending buffer and a reader, and how many of the sent bytes the reader has received. */
  class Pipe {
    const tx: Tx
    const rx: Rx
    var got: nat

    /** The texts accepted so far, and the chunks in which the reader received its bytes. */
    ghost var said: seq<Text>
    ghost var chunks: seq<seq<byte>>

    ghost predicate Valid()
      reads this, tx, tx.buf, rx, rx.pending
    {
      && tx.Valid() && rx.Valid() && tx.buf != rx.pending && got <= |tx.wire|
      && Linked(said, tx.frames, tx.wire, tx.Pending(), got, chunks, rx.pending[..rx.len], rx.handled)
    }

    /** The bytes of everything accepted. */
    ghost function Total(): nat
      reads this
    {
      if Fit(said) then |Concat(Encoded(said))| else 0
    }

    constructor (cap: nat)
      ensures Valid() && fresh(tx) && fresh(tx.buf) && fresh(rx) && fresh(rx.pending)
      ensures said == [] && got == 0 && tx.wire == []
    {
      tx := new Tx(cap);
      rx := new Rx();
      got, said, chunks := 0, [], [];
      new;
      NothingLinked();
    }

    lemma Sizes()
      requires Valid()
      ensures Fit(said) && Total() == |tx.wire| + |tx.Pending()|
    {
      hide Concat, Feed, Frame, StreamOk, AllFramed, Encoded;
    }

    lemma Bounds()
      requires Valid()
      ensures Fit(said) && got <= |tx.wire| <= Total()
    {
      Sizes();
    }

    method Utter(text: Text, noMemory: bool) returns (rc: int)
      requires Valid() && |text| <= BUFFER - 4
      modifies this, tx, tx.buf
      ensures Valid() && (tx.buf == old(tx.buf) || fresh(tx.buf)) && tx.wire == old(tx.wire) && got == old(got)
      ensures Answered(Step.Utter(text, noMemory), rc) && said == if rc == 0 then old(said) + [text] else old(said)
      ensures rc == -2 <==> |old(tx.Pending())| + |text| + 8 > tx.Cap()
    {
      hide Concat, Feed, Frame, StreamOk, AllFramed, Encoded, Linked;
      ghost var frames, pending, rest := tx.frames, tx.Pending(), rx.pending[..rx.len];
      rc := tx.QueueText(text, None, noMemory);
      if rc == 0 {
        LinkedSays(said, frames, tx.wire, pending, got, chunks, rest, rx.handled, text, tx.Pending());
        said := said + [text];
      }
    }

    method Push(script: seq<SendResult>) returns (rc: int)
      requires Valid()
      modifies tx
      ensures Valid() && tx.buf == old(tx.buf)
      ensures |tx.wire| == |old(tx.wire)| + Reach(script, Total() - |old(tx.wire)|)
    {
      hide Concat, Feed, Frame, StreamOk, AllFramed, Encoded, Linked, Moved, Reach, Breaks;
      Sizes();
      ghost var wire, pending, rest := tx.wire, tx.Pending(), rx.pending[..rx.len];
      rc := tx.Flush(script);
      MovedSize(wire, pending, tx.wire, tx.Pending(), Reach(script, |pending|));
      LinkedSends(said, tx.frames, wire, pending, got, chunks, rest, rx.handled, tx.wire, tx.Pending());
    }

    method Hear(sizes: seq<nat>, ghost longest: nat)
      requires Valid() && AtMost(said, longest) && longest <= BUFFER - 4
      modifies this, rx, rx.pending
      ensures Valid() && said == old(said)
      ensures got >= old(got) + Least(|tx.wire| - old(got), Gathered(sizes, BUFFER - longest - 3))
    {
      hide Concat, Feed, Frame, StreamOk, AllFramed, Encoded, Linked, Received, Gathered;
      ghost var pending, rest, handled := tx.Pending(), rx.pending[..rx.len], rx.handled;
      var taken, ended, more := rx.Receive(tx.wire[got..], sizes);
      ReceivedPart(rest, tx.wire[got..], sizes, more, ended);
      HearCovers(said, tx.frames, tx.wire, pending, got, chunks, rest, handled, longest, sizes, more, ended);
      LinkedReceives(said, tx.frames, tx.wire, pending, got, chunks, rest, handled, taken, more);
      got := got + taken;
      chunks := chunks + more;
    }

    /** Whether everything accepted has been sent and received; then it was all handed on. */
    method Arrived() returns (all: bool)
      requires Valid()
      ensures rx.handled <= said && (all ==> rx.handled == said)
      ensures all <==> got == |tx.wire| == Total()
    {
      hide Concat, Feed, Frame, StreamOk, AllFramed, Encoded, Linked;
      Sizes();
      LinkedHears(said, tx.frames, tx.wire, tx.Pending(), got, chunks, rx.pending[..rx.len], rx.handled);
      assert |tx.Pending()| == tx.len - tx.off;
      all := got == |tx.wire| && tx.off == tx.len;
    }
  }

  /**
   * However the texts are queued, the socket takes the bytes and the reader receives them: at every moment the
   * reader has handed on a prefix of the texts that were accepted, and all of them once nothing is under way. Once
   * nothing more is said, pushes that let all bytes out and then hears that take them in bring everything across.
   */
  method Drive(cap: nat, steps: seq<Step>, ghost a: nat, ghost b: nat, ghost longest: nat)
    returns (rcs: seq<int>, heard: seq<Text>, arrived: bool)
    requires forall i :: 0 <= i < |steps| && steps[i].Utter? ==> |steps[i].text| <= longest
    requires longest <= BUFFER - 4 && a <= b <= |steps|
    ensures |rcs| == |steps| && (forall i :: 0 <= i < |steps| ==> Answered(steps[i], rcs[i]))
    ensures Fit(Said(steps, rcs)) && heard <= Said(steps, rcs) && (arrived ==> heard == Said(steps, rcs))
    ensures var total := |Concat(Encoded(Said(steps, rcs)))|;
            (Quiet(steps, a, |steps|) && Pushed(steps, a, b) >= total
             && HeardIn(steps, b, |steps|, BUFFER - longest - 3) >= total) ==> arrived
  {
    hide Linked, Said, Concat, Encoded, Covered, Reach, Pushed, HeardIn, Gathered, Fit, Pipe.Valid;
    var p := new Pipe(cap);
    ghost var room := BUFFER - longest - 3;
    rcs := [];
    SaidNone(steps);
    CoveredStart(steps, a, b, room, 0, p.Total(), 0, 0);
    for i := 0 to |steps|
      invariant |rcs| == i && p.said == Said(steps[..i], rcs) && p.Valid() && AtMost(p.said, longest)
      invariant forall k :: 0 <= k < i ==> Answered(steps[k], rcs[k])
      invariant fresh(p) && fresh(p.tx) && fresh(p.tx.buf) && fresh(p.rx) && fresh(p.rx.pending)
      invariant Covered(steps, a, b, room, i, p.Total(), |p.tx.wire|, p.got)
    {
      p.Bounds();
      ghost var total, sent, got := p.Total(), |p.tx.wire|, p.got;
      var rc := 0;
      match steps[i] {
        case Utter(text, noMemory) => rc := p.Utter(text, noMemory);
        case Push(script) => rc := p.Push(script);
        case Hear(sizes) => p.Hear(sizes, longest);
      }
      p.Bounds();
      SaidNext(steps, rcs, rc);
      rcs := rcs + [rc];
      CoveredNext(steps, a, b, room, i, total, sent, got, p.Total(), |p.tx.wire|, p.got);
    }
    assert steps[..|steps|] == steps;
    p.Bounds();
    CoveredEnd(steps, a, b, room, p.Total(), |p.tx.wire|, p.got);
    arrived := p.Arrived();
    heard := p.rx.handled;
  }

  lemma CoveredEnd(steps: seq<Step>, a: nat, b: nat, room: nat, total: nat, sent: nat, got: nat)
    requires a <= b <= |steps| && Covered(steps, a, b, room, |steps|, total, sent, got) && got <= sent <= total
    ensures Quiet(steps, a, |steps|) && Pushed(steps, a, b) >= total && HeardIn(steps, b, |steps|, room) >= total
            ==> sent == total == got
  {
  }

  lemma ReceivedPart(start: seq<byte>, input: seq<byte>, sizes: seq<nat>, chunks: seq<seq<byte>>, ended: Ended)
    requires Received(start, input, sizes, chunks, ended)
    ensures Concat(chunks) <= input && Concat(chunks) == input[..|Concat(chunks)|]
  {
  }

  lemma SaidNone(steps: seq<Step>)
    ensures Said(steps[..0], []) == []
  {
  }
}
