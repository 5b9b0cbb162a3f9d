/** The frame-atomic outbound buffer of a non-blocking WebSocket. */
module WsTx {
  import opened Common
  import opened WsFrame

  const CAP_DEFAULT := 256 * 1024

  /** What one send() call did: took some bytes, was interrupted, would block, or failed. */
  datatype SendResult = Took(n: nat) | Interrupted | WouldBlock | Broken

  lemma ConcatSnoc(fs: seq<seq<byte>>, f: seq<byte>)
    ensures Concat(fs + [f]) == Concat(fs) + f
  {
    assert (fs + [f])[..|fs|] == fs;
  }

  lemma {:induction false} ConcatAppend(a: seq<seq<byte>>, b: seq<seq<byte>>)
    ensures Concat(a + b) == Concat(a) + Concat(b)
  {
    hide Concat;
    if b == [] {
      assert a + b == a;
      ConcatNone();
    } else {
      var front, last := b[..|b| - 1], b[|b| - 1];
      ConcatAppend(a, front);
      assert a + b == (a + front) + [last];
      ConcatSnoc(a + front, last);
      ConcatSnoc(front, last);
      assert front + [last] == b;
      assert (Concat(a) + Concat(front)) + last == Concat(a) + (Concat(front) + last);
    }
  }

  /** Frame `k` of a list starts in the concatenation where the frames before it end. */
  lemma ConcatAt(fs: seq<seq<byte>>, k: nat)
    requires k < |fs|
    ensures var start := |Concat(fs[..k])|;
            && |Concat(fs[..k + 1])| == start + |fs[k]| <= |Concat(fs)|
            && Concat(fs)[start..start + |fs[k]|] == fs[k]
  {
    assert fs == (fs[..k] + [fs[k]]) + fs[k + 1..];
    assert fs[..k + 1] == fs[..k] + [fs[k]];
    ConcatSnoc(fs[..k], fs[k]);
    ConcatAppend(fs[..k] + [fs[k]], fs[k + 1..]);
  }

  lemma ConcatSplit(fs: seq<seq<byte>>, k: nat)
    requires k <= |fs|
    ensures Concat(fs) == Concat(fs[..k]) + Concat(fs[k..])
  {
    assert fs == fs[..k] + fs[k..];
    ConcatAppend(fs[..k], fs[k..]);
  }

  ghost predicate AllFramed(fs: seq<seq<byte>>)
  {
    forall i :: 0 <= i < |fs| ==> WellFramed(fs[i])
  }

  /** The frame length read from the buffer in place: frame_len_at. */
  method FrameLenAt(buf: array<byte>, at: nat) returns (n: nat)
    requires at + 2 <= buf.Length && (buf[at + 1] as int % 128 == 126 ==> at + 4 <= buf.Length)
    ensures n == FrameLen(buf[at..])
  {
    var plen := buf[at + 1] as int % 128;
    var h := 2;
    if plen == 126 {
      plen := 256 * (buf[at + 2] as int) + buf[at + 3] as int;
      h := 4;
    }
    if buf[at + 1] >= 128 { h := h + 4; }
    return h + plen;
  }

  /** A frame's length can be read from any buffer that starts with the frame. */
  lemma FrameLenOfPrefix(b: seq<byte>, f: seq<byte>)
    requires WellFramed(f) && |f| <= |b| && b[..|f|] == f
    ensures |b| >= 2 && (b[1] as int % 128 == 126 ==> |b| >= 4) && FrameLen(b) == |f|
  {
    assert b[0] == b[..|f|][0] && b[1] == b[..|f|][1];
    if f[1] as int % 128 == 126 { assert b[2] == b[..|f|][2] && b[3] == b[..|f|][3]; }
  }

  // ---- the stream ---------------------------------------------------------

  /** The last `held` frames, whose bytes are still in the buffer. */
  function Held(frames: seq<seq<byte>>, held: nat): seq<seq<byte>>
    requires held <= |frames|
  {
    frames[|frames| - held..]
  }

  /** The buffer `b` holds exactly the held frames, `cur` of them sent whole; frameAt is the greatest frame
      boundary at or before off; and the wire has taken the earlier frames and the first off bytes. */
  ghost predicate StreamOk(frames: seq<seq<byte>>, held: nat, cur: nat, b: seq<byte>, off: nat, frameAt: nat,
                           wire: seq<byte>)
  {
    && cur <= held <= |frames| && frameAt <= off <= |b|
    && b == Concat(Held(frames, held)) && frameAt == |Concat(Held(frames, held)[..cur])|
    && (cur < held ==> off < frameAt + |Held(frames, held)[cur]|)
    && wire == Concat(frames[..|frames| - held]) + b[..off]
  }

  /** Bytes sent followed by bytes pending are exactly the frames queued. */
  lemma StreamIsFrames(frames: seq<seq<byte>>, held: nat, cur: nat, b: seq<byte>, off: nat, frameAt: nat,
                       wire: seq<byte>)
    requires StreamOk(frames, held, cur, b, off, frameAt, wire)
    ensures wire + b[off..] == Concat(frames)
  {
    hide Concat, StreamOk;
    StreamParts(frames, held, cur, b, off, frameAt, wire);
    SentAndLeft(frames, |frames| - held, b, off);
  }

  lemma StreamParts(frames: seq<seq<byte>>, held: nat, cur: nat, b: seq<byte>, off: nat, frameAt: nat, wire: seq<byte>)
    requires StreamOk(frames, held, cur, b, off, frameAt, wire)
    ensures held <= |frames| && off <= |b| && b == Concat(frames[|frames| - held..])
    ensures wire == Concat(frames[..|frames| - held]) + b[..off]
  {
    hide Concat;
  }

  lemma SentAndLeft(frames: seq<seq<byte>>, n: nat, b: seq<byte>, off: nat)
    requires n <= |frames| && b == Concat(frames[n..]) && off <= |b|
    ensures (Concat(frames[..n]) + b[..off]) + b[off..] == Concat(frames)
  {
    hide Concat;
    ConcatSplit(frames, n);
    Rejoin(Concat(frames[..n]), b, off);
  }

  lemma Rejoin(past: seq<byte>, b: seq<byte>, off: nat)
    requires off <= |b|
    ensures (past + b[..off]) + b[off..] == past + b
  {
  }

  lemma ConcatNone()
    ensures Concat([]) == []
  {
  }

  /** Dropping the frames that have gone whole leaves the stream as it was. */
  lemma CompactOk(frames: seq<seq<byte>>, held: nat, cur: nat, b: seq<byte>, off: nat, frameAt: nat, wire: seq<byte>)
    requires StreamOk(frames, held, cur, b, off, frameAt, wire)
    ensures StreamOk(frames, held - cur, 0, b[frameAt..], off - frameAt, 0, wire)
  {
    hide Concat;
    var h := Held(frames, held);
    var past := Concat(frames[..|frames| - held]);
    ConcatSplit(h, cur);
    assert b[..frameAt] == Concat(h[..cur]);
    assert Held(frames, held - cur) == h[cur..];
    assert frames[..|frames| - (held - cur)] == frames[..|frames| - held] + h[..cur];
    ConcatAppend(frames[..|frames| - held], h[..cur]);
    assert b[..off] == b[..frameAt] + b[frameAt..][..off - frameAt];
    assert past + (b[..frameAt] + b[frameAt..][..off - frameAt])
           == (past + b[..frameAt]) + b[frameAt..][..off - frameAt];
    var none: seq<seq<byte>> := [];
    assert h[cur..][..0] == none;
    ConcatNone();
  }

  /** A queued frame joins the end of the stream. */
  lemma AppendOk(frames: seq<seq<byte>>, held: nat, cur: nat, b: seq<byte>, off: nat, frameAt: nat, wire: seq<byte>,
                 f: seq<byte>)
    requires StreamOk(frames, held, cur, b, off, frameAt, wire) && f != []
    ensures StreamOk(frames + [f], held + 1, cur, b + f, off, frameAt, wire)
  {
    hide Concat;
    var h := Held(frames, held);
    assert Held(frames + [f], held + 1) == h + [f];
    ConcatSnoc(h, f);
    assert (h + [f])[..cur] == h[..cur];
    assert (frames + [f])[..|frames + [f]| - (held + 1)] == frames[..|frames| - held];
    assert (b + f)[..off] == b[..off];
    if cur == held { assert h[..cur] == h; }
  }

  /** What the flush loop keeps between its two inner steps: frameAt is a boundary at or before off. */
  ghost predicate Behind(frames: seq<seq<byte>>, held: nat, cur: nat, b: seq<byte>, off: nat, frameAt: nat,
                         wire: seq<byte>)
  {
    && cur <= held <= |frames| && frameAt <= off <= |b|
    && b == Concat(Held(frames, held)) && frameAt == |Concat(Held(frames, held)[..cur])|
    && wire == Concat(frames[..|frames| - held]) + b[..off]
  }

  lemma SentOk(frames: seq<seq<byte>>, held: nat, cur: nat, b: seq<byte>, off: nat, frameAt: nat, wire: seq<byte>,
               n: nat)
    requires Behind(frames, held, cur, b, off, frameAt, wire) && off + n <= |b|
    ensures Behind(frames, held, cur, b, off + n, frameAt, wire + b[off..off + n])
  {
    hide Concat;
    var past := Concat(frames[..|frames| - held]);
    assert (past + b[..off]) + b[off..off + n] == past + (b[..off] + b[off..off + n]);
    assert b[..off] + b[off..off + n] == b[..off + n];
  }

  /** With bytes left before off, the frame at frameAt exists and its length can be read there. */
  lemma NextFrame(frames: seq<seq<byte>>, held: nat, cur: nat, b: seq<byte>, off: nat, frameAt: nat, wire: seq<byte>)
    requires Behind(frames, held, cur, b, off, frameAt, wire) && frameAt < off && AllFramed(frames)
    ensures cur < held
    ensures var f := Held(frames, held)[cur];
            && WellFramed(f) && frameAt + |f| <= |b| && b[frameAt..][..|f|] == f
            && frameAt + |f| == |Concat(Held(frames, held)[..cur + 1])|
  {
    hide Concat, WellFramed;
    var h := Held(frames, held);
    assert h[..held] == h;
    ConcatAt(h, cur);
    assert h[cur] == frames[|frames| - held + cur];
    assert b[frameAt..][..|h[cur]|] == b[frameAt..frameAt + |h[cur]|];
  }

  /** A frame written at the end of the used part of a buffer with room for it. */
  method WriteBehind(text: Text, m: Mask, buf: array<byte>, len: nat) returns (n: nat)
    requires |text| < TEXT_MAX && len + |text| + 8 <= buf.Length && |Header(|text|, m)| <= 8
    modifies buf
    ensures n == |Frame(text, m)| && len + n <= buf.Length && buf[..len + n] == old(buf[..len]) + Frame(text, m)
  {
    hide Frame, Header;
    n := WriteFrame(text, m, buf, len);
    assert buf[..len + n] == buf[..len] + buf[len..len + n];
  }

  lemma PendingGrows(b: seq<byte>, f: seq<byte>, off: nat)
    requires off <= |b|
    ensures (b + f)[off..] == b[off..] + f
  {
  }

  class Tx {
    var buf: array<byte>
    var len: nat
    var off: nat
    var frameAt: nat
    const cap: nat
    var framesQueued: nat
    var wouldBlocks: nat
    var splitFrames: nat
    var highWater: nat

    /** Every byte the socket has taken. */
    var wire: seq<byte>

    /** Every frame queued successfully, how many of them the buffer holds, and which of those is being sent. */
    ghost var frames: seq<seq<byte>>
    ghost var held: nat
    ghost var cur: nat

    function Cap(): nat { if cap != 0 then cap else CAP_DEFAULT }

    ghost predicate Valid()
      reads this, buf
    {
      && off <= len <= buf.Length && AllFramed(frames) && framesQueued == |frames| && len - off <= Cap()
      && StreamOk(frames, held, cur, buf[..len], off, frameAt, wire)
    }

    /** Bytes not yet sent. */
    ghost function Pending(): seq<byte>
      requires Valid()
      reads this, buf
      ensures wire + Pending() == Concat(frames)
    {
      StreamIsFrames(frames, held, cur, buf[..len], off, frameAt, wire);
      buf[..len][off..]
    }

    constructor (cap: nat)
      ensures Valid() && fresh(buf) && frames == [] && wire == [] && this.cap == cap
    {
      this.cap := cap;
      buf := new byte[0];
      len, off, frameAt, framesQueued, wouldBlocks, splitFrames, highWater := 0, 0, 0, 0, 0, 0, 0;
      wire, frames, held, cur := [], [], 0, 0;
    }

    /** Drops the frames that have gone whole; the part-sent one moves to the front. */
    method Compact()
      requires Valid()
      modifies this, buf
      ensures Valid() && buf == old(buf)
      ensures wire == old(wire) && frames == old(frames) && Pending() == old(Pending())
      ensures highWater == old(highWater) && wouldBlocks == old(wouldBlocks) && splitFrames == old(splitFrames)
    {
      hide StreamOk, AllFramed;
      if frameAt == 0 { return; }
      ghost var b := buf[..len];
      FrameAtWithin(frames, held, cur, b, off, frameAt, wire);
      CompactOk(frames, held, cur, b, off, frameAt, wire);
      MoveDown(buf, frameAt, len);
      len := len - frameAt;
      off := off - frameAt;
      assert buf[..len] == b[frameAt..];
      assert b[frameAt..][off..] == b[off + frameAt..];
      frameAt := 0;
      held, cur := held - cur, 0;
    }

    /** realloc to at least `need` bytes, doubling from 4096. */
    method Grow(need: nat)
      requires Valid()
      modifies `buf
      ensures Valid() && buf.Length >= need && (buf == old(buf) || fresh(buf)) && Pending() == old(Pending())
    {
      hide StreamOk, AllFramed;
      if need <= buf.Length { return; }
      var want := if buf.Length != 0 then buf.Length else 4096;
      while want < need
        invariant want > 0
        decreases need - want
      {
        want := want * 2;
      }
      var nb := new byte[want](i => 0);
      CopyTo(buf[..len], nb, 0);
      assert nb[..len] == buf[..len];
      buf := nb;
    }

    /** rnet_ws_tx_queue_text: the frame is queued whole or not at all. `noMemory` says realloc failed. */
    method QueueText(text: Text, m: Mask, noMemory: bool) returns (rc: int)
      requires Valid()
      modifies this, buf
      ensures Valid() && (buf == old(buf) || fresh(buf)) && wire == old(wire)
      ensures rc == 0 ==> |text| < TEXT_MAX && frames == old(frames) + [Frame(text, m)]
                          && Pending() == old(Pending()) + Frame(text, m)
      ensures rc != 0 ==> frames == old(frames) && Pending() == old(Pending())
      ensures rc == -1 <==> |text| >= TEXT_MAX
      ensures rc == -2 <==> |text| < TEXT_MAX && |old(Pending())| + |text| + 8 > Cap()
      ensures rc == -3 ==> noMemory
      ensures rc in {0, -1, -2, -3}
      ensures highWater == if rc == 0 && |Pending()| > old(highWater) then |Pending()| else old(highWater)
      ensures wouldBlocks == old(wouldBlocks) && splitFrames == old(splitFrames)
    {
      hide StreamOk, AllFramed, Frame;
      if |text| >= TEXT_MAX { return -1; }
      var frameMax := |text| + 8;
      if len - off + frameMax > Cap() { return -2; }
      Compact();
      if len + frameMax > buf.Length {
        if noMemory { return -3; }
        Grow(len + frameMax);
      }
      AppendFrame(text, m);
      return 0;
    }

    /** The frame is written behind the buffered bytes, where it is known to fit. */
    method AppendFrame(text: Text, m: Mask)
      requires Valid() && |text| < TEXT_MAX && len + |text| + 8 <= buf.Length && len - off + |text| + 8 <= Cap()
      modifies this, buf
      ensures Valid() && buf == old(buf) && wire == old(wire)
      ensures frames == old(frames) + [Frame(text, m)] && Pending() == old(Pending()) + Frame(text, m)
      ensures highWater == if |Pending()| > old(highWater) then |Pending()| else old(highWater)
      ensures wouldBlocks == old(wouldBlocks) && splitFrames == old(splitFrames)
    {
      hide StreamOk, AllFramed, Frame;
      ghost var b := buf[..len];
      ghost var f := Frame(text, m);
      FrameSize(text, m);
      FrameIsWellFramed(text, m);
      AppendOk(frames, held, cur, b, off, frameAt, wire, f);
      FramedSnoc(frames, f);
      var n := WriteBehind(text, m, buf, len);
      PendingGrows(b, f, off);
      len := len + n;
      frames := frames + [f];
      held := held + 1;
      framesQueued := framesQueued + 1;
      if len - off > highWater { highWater := len - off; }
    }

    /** The length of the frame at frameAt, read from the buffer, is the length of that frame. */
    method CurrentLen() returns (n: nat)
      requires off <= len <= buf.Length && AllFramed(frames) && frameAt < off
      requires Behind(frames, held, cur, buf[..len], off, frameAt, wire)
      ensures cur < held <= |frames| && n == |Held(frames, held)[cur]| > 0
      ensures frameAt + n == |Concat(Held(frames, held)[..cur + 1])| <= len
    {
      hide AllFramed, Behind, Concat;
      ghost var b := buf[..len];
      NextFrame(frames, held, cur, b, off, frameAt, wire);
      HeldWithin(frames, held, cur, b, off, frameAt, wire);
      ghost var f := Held(frames, held)[cur];
      assert buf[frameAt..][..|f|] == b[frameAt..][..|f|];
      FrameLenOfPrefix(buf[frameAt..], f);
      assert buf[frameAt + 1] == buf[frameAt..][1];
      n := FrameLenAt(buf, frameAt);
    }

    /** After a send: frameAt follows off to the last frame boundary it passed. */
    method FollowFrames()
      requires off <= len <= buf.Length && AllFramed(frames)
      requires Behind(frames, held, cur, buf[..len], off, frameAt, wire)
      modifies `frameAt, `cur
      ensures StreamOk(frames, held, cur, buf[..len], off, frameAt, wire)
    {
      hide AllFramed, Behind, StreamOk, Concat;
      while frameAt < off
        invariant Behind(frames, held, cur, buf[..len], off, frameAt, wire)
        decreases len - frameAt
      {
        var n := CurrentLen();
        if frameAt + n > off {
          StoppedInside(frames, held, cur, buf[..len], off, frameAt, wire);
          return;
        }
        PassedFrame(frames, held, cur, buf[..len], off, frameAt, wire);
        frameAt := frameAt + n;
        cur := cur + 1;
      }
      StoppedBetween(frames, held, cur, buf[..len], off, frameAt, wire);
    }

    /** One successful send of at most `n` bytes. */
    method TakeSome(n: nat)
      requires Valid() && off < len && n > 0
      modifies `off, `wire, `frameAt, `cur
      ensures Valid() && off == old(off) + (if n < len - old(off) then n else len - old(off))
      ensures wire == old(wire) + old(Pending())[..off - old(off)]
      ensures Pending() == old(Pending())[off - old(off)..]
    {
      hide AllFramed, Concat, StreamOk, Behind;
      ghost var b := buf[..len];
      var k := if n < len - off then n else len - off;
      StreamIsBehind(frames, held, cur, b, off, frameAt, wire);
      SentOk(frames, held, cur, b, off, frameAt, wire, k);
      assert b[off..][..k] == b[off..off + k] && b[off..][k..] == b[off + k..];
      assert b[off..off + k] == buf[off..off + k];
      wire := wire + buf[off..off + k];
      off := off + k;
      FollowFrames();
    }

    /** The send loop of the flush: goes on while there are bytes left and the socket takes some or was interrupted. */
    method SendWhile(script: seq<SendResult>) returns (i: nat)
      requires Valid()
      modifies `off, `wire, `frameAt, `cur
      ensures Valid() && i <= |script| && Runs(script, i) && off <= len
      ensures off == len || i == |script| || !Goes(script[i])
      ensures Moved(old(wire), old(Pending()), wire, Pending(), Least(Offered(script, i), |old(Pending())|))
    {
      hide AllFramed, Concat, StreamOk, Offered, Runs, Moved;
      ghost var b, was := Pending(), wire;
      i := 0;
      OfferedNone(script);
      NoneMoved(was, b);
      while off < len && i < |script| && Goes(script[i])
        invariant Valid() && i <= |script| && Runs(script, i)
        invariant Moved(was, b, wire, Pending(), Least(Offered(script, i), |b|))
      {
        OfferedNext(script, i);
        if script[i].Took? {
          ghost var k, w, p := Least(Offered(script, i), |b|), wire, Pending();
          TakeSome(script[i].n);
          MovesOn(was, b, w, p, k, script[i].n, wire, Pending());
        }
        i := i + 1;
      }
    }

    /** rnet_ws_tx_flush: sends until the backlog is gone, the socket would block, or it fails.
        `script` is what successive send() calls do; a socket with nothing more to say would block.
        What goes out is what the socket takes before it stops, and no more than there is. */
    method Flush(script: seq<SendResult>) returns (rc: int)
      requires Valid()
      modifies this
      ensures Valid() && buf == old(buf) && frames == old(frames) && highWater == old(highWater)
      ensures var b := |old(Pending())|;
              var k := Reach(script, b);
              && Moved(old(wire), old(Pending()), wire, Pending(), k)
              && (rc == 0 <==> k == b) && (rc == -1 <==> k < b && Breaks(script))
              && (k < b && !Breaks(script) ==> rc == b - k && wouldBlocks == old(wouldBlocks) + 1)
              && (rc <= 0 ==> wouldBlocks == old(wouldBlocks) && splitFrames == old(splitFrames))
      ensures rc > 0 ==> splitFrames == old(splitFrames) + (if AtBoundary(frames, wire) then 0 else 1)
    {
      hide AllFramed, Concat, StreamOk, AtBoundary, Offered, Runs, Moved, StopAt;
      ghost var b := Pending();
      var i := SendWhile(script);
      ghost var w, p := wire, Pending();
      assert |p| == len - off;
      MovedSize(old(wire), b, w, p, Least(Offered(script, i), |b|));
      if off < len {
        StopsHere(script, i);
        if i < |script| && !script[i].WouldBlock? { return -1; }
        wouldBlocks := wouldBlocks + 1;
        BoundaryIff(frames, held, cur, buf[..len], off, frameAt, wire);
        if off != frameAt { splitFrames := splitFrames + 1; }
        return len - off;
      }
      CoveredStop(script, i, |b|);
      assert p == [];
      DrainedOk(frames, held, cur, buf[..len], off, frameAt, wire);
      len, off, frameAt := 0, 0, 0;
      held, cur := 0, 0;
      assert buf[..0] == [];
      return 0;
    }
  }

  // ---- what a socket takes ------------------------------------------------

  function Least(a: nat, b: nat): nat { if a < b then a else b }

  /** The send loop goes on after this result. */
  predicate Goes(r: SendResult) { r.Interrupted? || (r.Took? && r.n > 0) }

  /** The first `i` results all let the loop go on. */
  predicate Runs(script: seq<SendResult>, i: nat)
    requires i <= |script|
  {
    forall k :: 0 <= k < i ==> Goes(script[k])
  }

  /** The first result that ends the loop, or the end of the script. */
  function StopAt(script: seq<SendResult>): (i: nat)
    ensures i <= |script| && Runs(script, i) && (i < |script| ==> !Goes(script[i]))
  {
    if script == [] || !Goes(script[0]) then 0
    else
      var i := StopAt(script[1..]);
      assert forall k :: 0 < k < i + 1 ==> script[k] == script[1..][k - 1];
      i + 1
  }

  /** How many bytes the first `i` results take. */
  function Offered(script: seq<SendResult>, i: nat): nat
    requires i <= |script|
  {
    if i == 0 then 0 else Offered(script, i - 1) + if script[i - 1].Took? then script[i - 1].n else 0
  }

  /** How much of a backlog of `b` bytes the socket takes before it stops. */
  function Reach(script: seq<SendResult>, b: nat): nat
  {
    Least(Offered(script, StopAt(script)), b)
  }

  /** The loop ends with an error, not because the socket would block. */
  predicate Breaks(script: seq<SendResult>)
  {
    StopAt(script) < |script| && !script[StopAt(script)].WouldBlock?
  }

  lemma OfferedNone(script: seq<SendResult>)
    ensures Offered(script, 0) == 0 && Runs(script, 0)
  {
  }

  lemma OfferedNext(script: seq<SendResult>, i: nat)
    requires i < |script| && Runs(script, i) && Goes(script[i])
    ensures Runs(script, i + 1)
    ensures Offered(script, i + 1) == Offered(script, i) + if script[i].Took? then script[i].n else 0
  {
  }

  lemma StopsHere(script: seq<SendResult>, i: nat)
    requires i <= |script| && Runs(script, i)
    ensures i == |script| || !Goes(script[i]) ==> StopAt(script) == i
  {
  }

  lemma {:induction false} OfferedGrows(script: seq<SendResult>, i: nat, j: nat)
    requires i <= j <= |script|
    ensures Offered(script, i) <= Offered(script, j)
  {
    if i < j { OfferedGrows(script, i, j - 1); }
  }

  /** Once the backlog is covered, what stands later in the script does not matter. */
  lemma CoveredStop(script: seq<SendResult>, i: nat, backlog: nat)
    requires i <= |script| && Runs(script, i) && Least(Offered(script, i), backlog) == backlog
    ensures Least(Offered(script, StopAt(script)), backlog) == backlog
  {
    OfferedGrows(script, i, StopAt(script));
  }

  /** The first `k` bytes of the backlog went behind what was on the wire. */
  ghost predicate Moved(was: seq<byte>, b: seq<byte>, wire: seq<byte>, pending: seq<byte>, k: nat)
  {
    k <= |b| && wire == was + b[..k] && pending == b[k..]
  }

  lemma MovedSize(was: seq<byte>, b: seq<byte>, wire: seq<byte>, pending: seq<byte>, k: nat)
    requires Moved(was, b, wire, pending, k)
    ensures |pending| == |b| - k && was <= wire && |wire| == |was| + k
  {
  }

  lemma NoneMoved(was: seq<byte>, b: seq<byte>)
    ensures Moved(was, b, was, b, 0)
  {
  }

  lemma MovesOn(was: seq<byte>, b: seq<byte>, w: seq<byte>, p: seq<byte>, k: nat, n: nat, w': seq<byte>, p': seq<byte>)
    requires Moved(was, b, w, p, k)
    requires var m := Least(n, |p|); w' == w + p[..m] && p' == p[m..]
    ensures Moved(was, b, w', p', Least(k + n, |b|))
  {
    var m := Least(n, |p|);
    assert b[..k] + b[k..][..m] == b[..k + m] && b[k..][m..] == b[k + m..];
    assert was + b[..k] + b[k..][..m] == was + b[..k + m];
  }

  datatype Op = Queue(text: Text, m: Mask, noMemory: bool) | Flush(script: seq<SendResult>)

  /** The frames of the queue calls that returned 0, in order. */
  function Accepted(ops: seq<Op>, rcs: seq<int>): (fs: seq<seq<byte>>)
    requires Codes(ops, rcs)
  {
    if ops == [] then []
    else
      var n := |ops| - 1;
      Accepted(ops[..n], rcs[..n]) + if ops[n].Queue? && rcs[n] == 0 then [Frame(ops[n].text, ops[n].m)] else []
  }

  /** The return codes of a run of calls are those of the buffer: what each queue call was refused for. */
  predicate Codes(ops: seq<Op>, rcs: seq<int>)
  {
    |ops| == |rcs| && forall i :: 0 <= i < |ops| && ops[i].Queue? ==>
      rcs[i] in {0, -1, -2, -3} && (rcs[i] == -1 <==> |ops[i].text| >= TEXT_MAX) && (rcs[i] == -3 ==> ops[i].noMemory)
  }

  lemma NoneAccepted(ops: seq<Op>)
    ensures Codes(ops[..0], []) && Accepted(ops[..0], []) == []
  {
  }

  lemma AcceptedNext(ops: seq<Op>, rcs: seq<int>, rc: int)
    requires |rcs| < |ops| && Codes(ops[..|rcs|], rcs)
    requires ops[|rcs|].Queue? ==>
      rc in {0, -1, -2, -3} && (rc == -1 <==> |ops[|rcs|].text| >= TEXT_MAX) && (rc == -3 ==> ops[|rcs|].noMemory)
    ensures Codes(ops[..|rcs| + 1], rcs + [rc])
    ensures var op := ops[|rcs|];
      Accepted(ops[..|rcs| + 1], rcs + [rc])
      == Accepted(ops[..|rcs|], rcs) + if op.Queue? && rc == 0 then [Frame(op.text, op.m)] else []
  {
    hide Frame;
    var i := |rcs|;
    assert ops[..i + 1][..i] == ops[..i] && (rcs + [rc])[..i] == rcs;
  }

  /** Any interleaving of queue and flush calls: bytes sent followed by bytes pending are the frames of exactly the
      queue calls that returned 0, in order, and the backlog stays within the cap. */
  method Drive(tx: Tx, ops: seq<Op>) returns (rcs: seq<int>)
    requires tx.Valid()
    modifies tx, tx.buf
    ensures tx.Valid() && Codes(ops, rcs) && tx.frames == old(tx.frames) + Accepted(ops, rcs)
    ensures old(tx.wire) <= tx.wire && tx.wire + tx.Pending() == Concat(tx.frames) && |tx.Pending()| <= tx.Cap()
  {
    hide StreamOk, Concat, AllFramed, Frame, Accepted, Codes, Moved, Reach, Breaks;
    rcs := [];
    NoneAccepted(ops);
    var i := 0;
    while i < |ops|
      invariant 0 <= i == |rcs| <= |ops| && tx.Valid() && Codes(ops[..i], rcs) && old(tx.wire) <= tx.wire
      invariant tx.frames == old(tx.frames) + Accepted(ops[..i], rcs)
      invariant tx.buf == old(tx.buf) || fresh(tx.buf)
    {
      var rc;
      match ops[i] {
        case Queue(text, m, noMemory) => rc := tx.QueueText(text, m, noMemory);
        case Flush(script) =>
          ghost var was, b := tx.wire, tx.Pending();
          rc := tx.Flush(script);
          MovedSize(was, b, tx.wire, tx.Pending(), Reach(script, |b|));
      }
      AcceptedNext(ops, rcs, rc);
      rcs := rcs + [rc];
      i := i + 1;
    }
    assert ops[..i] == ops;
  }

  /** The wire ends between two frames. */
  ghost predicate AtBoundary(frames: seq<seq<byte>>, wire: seq<byte>)
  {
    exists k :: 0 <= k <= |frames| && wire == Concat(frames[..k])
  }

  lemma StreamIsBehind(frames: seq<seq<byte>>, held: nat, cur: nat, b: seq<byte>, off: nat, frameAt: nat,
                       wire: seq<byte>)
    requires StreamOk(frames, held, cur, b, off, frameAt, wire)
    ensures Behind(frames, held, cur, b, off, frameAt, wire)
  {
  }

  /** With nothing pending the wire has every frame, and the buffer may be emptied. */
  lemma DrainedOk(frames: seq<seq<byte>>, held: nat, cur: nat, b: seq<byte>, off: nat, frameAt: nat, wire: seq<byte>)
    requires StreamOk(frames, held, cur, b, off, frameAt, wire) && off == |b|
    ensures wire == Concat(frames) && StreamOk(frames, 0, 0, [], 0, 0, wire)
  {
    hide Concat;
    StreamIsFrames(frames, held, cur, b, off, frameAt, wire);
    assert wire + b[off..] == wire;
    assert frames[..|frames|] == frames;
    var none: seq<seq<byte>> := [];
    assert Held(frames, 0) == none && none[..0] == none;
    ConcatNone();
    var empty: seq<byte> := [];
    assert Concat(frames) + empty[..0] == Concat(frames);
  }

  lemma {:induction false} ConcatGrows(frames: seq<seq<byte>>, j: nat, k: nat)
    requires j <= k <= |frames|
    ensures |Concat(frames[..j])| <= |Concat(frames[..k])|
  {
    hide Concat;
    if j < k {
      ConcatGrows(frames, j, k - 1);
      ConcatAt(frames, k - 1);
    }
  }

  /** A would-block splits a frame exactly when off has left the boundary. */
  lemma BoundaryIff(frames: seq<seq<byte>>, held: nat, cur: nat, b: seq<byte>, off: nat, frameAt: nat, wire: seq<byte>)
    requires StreamOk(frames, held, cur, b, off, frameAt, wire)
    ensures off == frameAt <==> AtBoundary(frames, wire)
  {
    hide Concat;
    var h := Held(frames, held);
    var m := |frames| - held + cur;
    ConcatSplit(h, cur);
    assert b[..frameAt] == Concat(h[..cur]);
    assert frames[..m] == frames[..|frames| - held] + h[..cur];
    ConcatAppend(frames[..|frames| - held], h[..cur]);
    if off == frameAt {
      assert wire == Concat(frames[..m]);
    } else if AtBoundary(frames, wire) {
      var k :| 0 <= k <= |frames| && wire == Concat(frames[..k]);
      assert |wire| == |Concat(frames[..m])| + (off - frameAt);
      if k <= m { ConcatGrows(frames, k, m); }
      else {
        assert h[..held] == h;
        assert cur < held;
        ConcatAt(frames, m);
        ConcatGrows(frames, m + 1, k);
      }
    }
  }

  lemma HeldWithin(frames: seq<seq<byte>>, held: nat, cur: nat, b: seq<byte>, off: nat, frameAt: nat, wire: seq<byte>)
    requires Behind(frames, held, cur, b, off, frameAt, wire)
    ensures cur <= held <= |frames| && frameAt <= off <= |b|
  {
  }

  lemma StoppedInside(frames: seq<seq<byte>>, held: nat, cur: nat, b: seq<byte>, off: nat, frameAt: nat,
                      wire: seq<byte>)
    requires Behind(frames, held, cur, b, off, frameAt, wire) && cur < held && frameAt + |Held(frames, held)[cur]| > off
    ensures StreamOk(frames, held, cur, b, off, frameAt, wire)
  {
  }

  lemma StoppedBetween(frames: seq<seq<byte>>, held: nat, cur: nat, b: seq<byte>, off: nat, frameAt: nat,
                       wire: seq<byte>)
    requires Behind(frames, held, cur, b, off, frameAt, wire) && AllFramed(frames) && frameAt >= off
    ensures StreamOk(frames, held, cur, b, off, frameAt, wire)
  {
    if cur < held { assert WellFramed(frames[|frames| - held + cur]); }
  }

  lemma PassedFrame(frames: seq<seq<byte>>, held: nat, cur: nat, b: seq<byte>, off: nat, frameAt: nat, wire: seq<byte>)
    requires Behind(frames, held, cur, b, off, frameAt, wire) && cur < held
    requires frameAt + |Held(frames, held)[cur]| == |Concat(Held(frames, held)[..cur + 1])| <= off
    ensures Behind(frames, held, cur + 1, b, off, frameAt + |Held(frames, held)[cur]|, wire)
  {
  }

  lemma FrameAtWithin(frames: seq<seq<byte>>, held: nat, cur: nat, b: seq<byte>, off: nat, frameAt: nat,
                      wire: seq<byte>)
    requires StreamOk(frames, held, cur, b, off, frameAt, wire)
    ensures frameAt <= off <= |b| && cur <= held
  {
  }

  lemma FrameSize(text: Text, m: Mask)
    requires |text| < TEXT_MAX
    ensures |Frame(text, m)| == |Header(|text|, m)| + |text| <= |text| + 8
  {
  }

  lemma FramedSnoc(frames: seq<seq<byte>>, f: seq<byte>)
    requires AllFramed(frames) && WellFramed(f)
    ensures AllFramed(frames + [f])
  {
    hide WellFramed;
  }

  /** memmove of a[from..to] to the front. */
  method MoveDown(a: array<byte>, from: nat, to: nat)
    requires from <= to <= a.Length
    modifies a
    ensures a[..to - from] == old(a[from..to])
  {
    var i := 0;
    while i < to - from
      invariant 0 <= i <= to - from
      invariant a[..i] == old(a[from..to])[..i]
      invariant a[from + i..to] == old(a[from..to])[i..]
    {
      assert a[from + i] == a[from + i..to][0];
      a[i] := a[from + i];
      i := i + 1;
    }
  }
}
