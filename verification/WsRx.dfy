/** The incremental frame reader of the lobby client. */
module WsRx {
  import opened Common
  import opened WsFrame
  import opened WsTx

  const BUFFER := 4096

  /** How a drain ended: waiting for bytes, buffer thrown away, or connection closed by the peer. */
  datatype Status = Open | Reset | Closed

  datatype Drained = Drained(texts: seq<Text>, rest: seq<byte>, status: Status)

  /** The first frame of a buffer as the reader sees it. */
  datatype First = Short | Refused | Whole(opcode: nat, payload: Text, size: nat)

  function FirstFrame(b: seq<byte>): (f: First)
    ensures f.Whole? ==> 2 <= f.size <= |b|
  {
    if |b| < 2 then Short
    else if b[1] >= 128 then Refused
    else
      var short := b[1] as int;
      if short == 127 then Refused
      else if short == 126 && |b| < 4 then Short
      else
        var head := if short == 126 then 4 else 2;
        var len := if short == 126 then 256 * (b[2] as int) + b[3] as int else short;
        if |b| < head + len then Short else Whole(b[0] as int % 16, b[head..head + len], head + len)
  }

  /** The handler is called for text frames that fit its buffer. */
  function Handed(f: First): seq<Text>
    requires f.Whole?
  {
    if f.opcode == 1 && |f.payload| + 1 < BUFFER then [f.payload] else []
  }

  /** drain_ws_pending: whole frames are handed on in order; an incomplete one waits. */
  function Drain(b: seq<byte>): (d: Drained)
    ensures |d.rest| <= |b|
  {
    match FirstFrame(b)
    case Short => Drained([], b, Open)
    case Refused => Drained([], [], Reset)
    case Whole(opcode, payload, size) =>
      if opcode == 8 then Drained(Handed(FirstFrame(b)), b[size..], Closed)
      else
        var d := Drain(b[size..]);
        d.(texts := Handed(FirstFrame(b)) + d.texts)
  }

  // ---- against the standard -----------------------------------------------

  /** The reader takes exactly the whole frames of section 5.2 of RFC 6455 that are unmasked and have no 64-bit length,
      and reads them as the standard does; it refuses the others by their second byte. */
  lemma FirstIsParsed(b: seq<byte>)
    ensures var f, p := FirstFrame(b), Parse(b);
      && (f.Whole? <==> p.Parsed? && b[1] < 127)
      && (f.Whole? ==> f.opcode == p.opcode && f.payload == p.payload && f.size == p.size && !p.masked)
      && (f.Refused? <==> |b| >= 2 && b[1] >= 127)
  {
    if |b| >= 4 && b[1] == 126 {
      assert b[2..4] == [b[2], b[3]];
      BigEndianTwo(b[2], b[3]);
    }
    if Parse(b).Parsed? && b[1] < 127 {
      var head := if b[1] == 126 then 4 else 2;
      assert Masked(b[head..Parse(b).size], None) == b[head..Parse(b).size];
    }
  }

  /** The handler gets the payload of a text frame of at most 4094 bytes, and nothing of any other frame. */
  lemma HandedIff(b: seq<byte>, text: Text)
    requires FirstFrame(b).Whole? && Parse(b).Parsed?
    ensures text in Handed(FirstFrame(b)) <==> Parse(b).opcode == 1 && |text| <= 4094 && text == Parse(b).payload
    ensures |Handed(FirstFrame(b))| <= 1
  {
    FirstIsParsed(b);
    hide FirstFrame, Parse;
  }

  // ---- chunk independence -------------------------------------------------

  lemma FirstFrameStays(b: seq<byte>, c: seq<byte>)
    requires FirstFrame(b) != Short
    ensures FirstFrame(b + c) == FirstFrame(b)
  {
    if FirstFrame(b).Whole? {
      var w := FirstFrame(b);
      assert (b + c)[..w.size] == b[..w.size];
      var head := w.size - |w.payload|;
      assert (b + c)[head..w.size] == b[head..w.size];
    }
  }

  lemma DrainWaits(b: seq<byte>)
    requires FirstFrame(b) == Short
    ensures Drain(b) == Drained([], b, Open)
  {
  }

  lemma DrainRefuses(b: seq<byte>)
    requires FirstFrame(b) == Refused
    ensures Drain(b) == Drained([], [], Reset)
  {
  }

  lemma DrainHands(b: seq<byte>)
    requires FirstFrame(b).Whole? && FirstFrame(b).opcode != 8
    ensures var d := Drain(b[FirstFrame(b).size..]);
            Drain(b) == d.(texts := Handed(FirstFrame(b)) + d.texts)
  {
  }

  lemma DrainCloses(b: seq<byte>)
    requires FirstFrame(b).Whole? && FirstFrame(b).opcode == 8
    ensures Drain(b).status == Closed
  {
  }

  /** Draining a buffer and then more bytes behind its remainder is draining it all at once, as long as
      nothing in it made the reader throw the buffer away or close. */
  lemma {:induction false} DrainResumes(b: seq<byte>, c: seq<byte>)
    requires Drain(b).status == Open
    ensures var d := Drain(Drain(b).rest + c);
            Drain(b + c) == d.(texts := Drain(b).texts + d.texts)
    decreases |b|
  {
    hide FirstFrame, Drain, Handed;
    var f := FirstFrame(b);
    if f == Short {
      DrainWaits(b);
      assert [] + Drain(b + c).texts == Drain(b + c).texts;
    } else if f == Refused {
      DrainRefuses(b);
    } else if f.opcode == 8 {
      DrainCloses(b);
    } else {
      DrainHands(b);
      FirstFrameStays(b, c);
      DrainHands(b + c);
      var tail := b[f.size..];
      assert (b + c)[f.size..] == tail + c;
      DrainResumes(tail, c);
      var d := Drain(Drain(tail).rest + c);
      assert Handed(f) + (Drain(tail).texts + d.texts) == (Handed(f) + Drain(tail).texts) + d.texts;
    }
  }

  lemma {:induction false} ResetStays(b: seq<byte>, c: seq<byte>)
    requires Drain(b).status == Reset
    ensures Drain(b + c) == Drain(b)
    decreases |b|
  {
    hide FirstFrame, Drain, Handed;
    var f := FirstFrame(b);
    if f == Short { DrainWaits(b); }
    else if f == Refused { DrainRefuses(b); FirstFrameStays(b, c); DrainRefuses(b + c); }
    else if f.opcode == 8 { DrainCloses(b); }
    else {
      DrainHands(b);
      FirstFrameStays(b, c);
      DrainHands(b + c);
      assert (b + c)[f.size..] == b[f.size..] + c;
      ResetStays(b[f.size..], c);
    }
  }

  // ---- streams of good frames ---------------------------------------------

  /** An unmasked frame of at most 4096 bytes, header included, that is not a close. */
  ghost predicate Good(f: seq<byte>)
  {
    FirstFrame(f).Whole? && FirstFrame(f).size == |f| <= BUFFER && FirstFrame(f).opcode != 8
  }

  ghost predicate AllGood(fs: seq<seq<byte>>)
  {
    forall i :: 0 <= i < |fs| ==> Good(fs[i])
  }

  /** The texts a stream of frames carries. */
  ghost function Texts(fs: seq<seq<byte>>): seq<Text>
  {
    if fs == [] then []
    else Texts(fs[..|fs| - 1]) + (if FirstFrame(fs[|fs| - 1]).Whole? then Handed(FirstFrame(fs[|fs| - 1])) else [])
  }

  lemma GoodFrameDrains(f: seq<byte>)
    requires Good(f)
    ensures Drain(f) == Drained(Handed(FirstFrame(f)), [], Open)
  {
    assert f[|f|..] == [];
    var none: seq<byte> := [];
    assert FirstFrame(none) == Short;
    assert Drain(none) == Drained([], none, Open);
    assert Handed(FirstFrame(f)) + [] == Handed(FirstFrame(f));
  }

  /** A whole stream of good frames is handed on in full. */
  lemma {:induction false} StreamDrains(fs: seq<seq<byte>>)
    requires AllGood(fs)
    ensures Drain(Concat(fs)) == Drained(Texts(fs), [], Open)
  {
    hide FirstFrame, Good;
    if fs == [] { EmptyDrains(); }
    else {
      var front, last := fs[..|fs| - 1], fs[|fs| - 1];
      assert AllGood(front);
      StreamDrains(front);
      DrainResumes(Concat(front), last);
      var none: seq<byte> := [];
      assert none + last == last;
      GoodFrameDrains(last);
      GoodIsWhole(last);
    }
  }

  lemma EmptyDrains()
    ensures Drain([]) == Drained([], [], Open)
  {
  }

  lemma GoodIsWhole(f: seq<byte>)
    requires Good(f)
    ensures FirstFrame(f).Whole?
  {
  }

  /** A proper prefix of a good frame waits whole in the buffer. */
  lemma PrefixWaits(f: seq<byte>, n: nat)
    requires Good(f) && n < |f|
    ensures Drain(f[..n]) == Drained([], f[..n], Open)
  {
    assert FirstFrame(f[..n]) == Short;
  }

  /** How many frames end at or before byte `n` of the stream. */
  lemma {:induction false} FrameOf(fs: seq<seq<byte>>, n: nat) returns (k: nat)
    requires n < |Concat(fs)|
    ensures k < |fs| && |Concat(fs[..k])| <= n < |Concat(fs[..k + 1])|
  {
    var last := |fs| - 1;
    if n < |Concat(fs[..last])| {
      k := FrameOf(fs[..last], n);
      assert fs[..last][..k] == fs[..k] && fs[..last][..k + 1] == fs[..k + 1];
    } else {
      assert fs[..last + 1] == fs;
      k := last;
    }
  }

  /** Any prefix of a good stream: the whole frames are handed on, less than a buffer full waits. */
  lemma PrefixDrains(fs: seq<seq<byte>>, n: nat)
    requires AllGood(fs) && n <= |Concat(fs)|
    ensures Drain(Concat(fs)[..n]).status == Open && |Drain(Concat(fs)[..n]).rest| < BUFFER
    ensures Drain(Concat(fs)[..n]).texts <= Texts(fs)
    ensures Drain(Concat(fs)[..n]).rest == [] || exists k :: 0 <= k < |fs| && |Drain(Concat(fs)[..n]).rest| < |fs[k]|
  {
    hide FirstFrame, Good, Concat, Drain, Texts;
    if n == |Concat(fs)| {
      assert Concat(fs)[..n] == Concat(fs);
      StreamDrains(fs);
    } else {
      var k := FrameOf(fs, n);
      var at := |Concat(fs[..k])|;
      ConcatAt(fs, k);
      ConcatSplit(fs, k);
      StreamDrains(fs[..k]);
      var part := fs[k][..n - at];
      PrefixSplits(Concat(fs), Concat(fs[..k]), fs[k], n);
      DrainResumes(Concat(fs[..k]), part);
      var none: seq<byte> := [];
      assert none + part == part;
      PrefixWaits(fs[k], n - at);
      GoodFits(fs[k]);
      TextsPrefix(fs, k);
    }
  }

  /** The first n bytes of a stream, where the piece f stands behind a. */
  lemma PrefixSplits(s: seq<byte>, a: seq<byte>, f: seq<byte>, n: nat)
    requires a <= s && |a| <= n <= |a| + |f| <= |s| && s[|a|..|a| + |f|] == f
    ensures s[..n] == a + f[..n - |a|]
  {
    assert s[..|a|] == a;
    forall i | |a| <= i < n ensures s[i] == f[i - |a|] { assert s[i] == s[|a|..|a| + |f|][i - |a|]; }
  }

  lemma GoodFits(f: seq<byte>)
    requires Good(f)
    ensures |f| <= BUFFER
  {
  }

  lemma {:induction false} TextsPrefix(fs: seq<seq<byte>>, k: nat)
    requires k <= |fs|
    ensures Texts(fs[..k]) <= Texts(fs)
    decreases |fs| - k
  {
    hide FirstFrame;
    if k < |fs| {
      assert fs[..|fs| - 1][..k] == fs[..k];
      TextsPrefix(fs[..|fs| - 1], k);
    } else {
      assert fs[..k] == fs;
    }
  }

  // ---- with our own encoder -----------------------------------------------

  /** The reader accepts what the encoder writes unmasked, and hands on exactly the text. */
  lemma EncodedIsGood(text: Text)
    requires |text| <= BUFFER - 4
    ensures Good(Frame(text, None)) && Handed(FirstFrame(Frame(text, None))) == [text]
  {
    var f := Frame(text, None);
    HeaderBytes(|text|, None);
    FrameParts(text, None, []);
    assert f + [] == f;
    var h := |Header(|text|, None)|;
    assert f[h..h + |text|] == Masked(text, None) == text;
  }

  /** A longer text is never handed on: with the buffer full, its frame is still not whole. */
  lemma TooLongWaits(text: Text)
    requires BUFFER - 4 < |text| < TEXT_MAX
    ensures |Frame(text, None)| > BUFFER
    ensures var b := Frame(text, None)[..BUFFER]; Drain(b) == Drained([], b, Open)
  {
    HeaderBytes(|text|, None);
    FrameParts(text, None, []);
    assert Frame(text, None) + [] == Frame(text, None);
    var b := Frame(text, None)[..BUFFER];
    assert b[1] == 126 && 256 * (b[2] as int) + b[3] as int == |text|;
    assert FirstFrame(b) == Short;
  }

  function Encoded(texts: seq<Text>): (fs: seq<seq<byte>>)
    requires forall i :: 0 <= i < |texts| ==> |texts[i]| < TEXT_MAX
    ensures |fs| == |texts|
  {
    seq(|texts|, i requires 0 <= i < |texts| => Frame(texts[i], None))
  }

  /** Round trip: what is framed unmasked and read back, in whatever pieces, is what was said. */
  lemma {:induction false} EncodedTexts(texts: seq<Text>)
    requires forall i :: 0 <= i < |texts| ==> |texts[i]| <= BUFFER - 4
    ensures AllGood(Encoded(texts)) && Texts(Encoded(texts)) == texts
  {
    hide FirstFrame, Frame, Good;
    var fs := Encoded(texts);
    forall i | 0 <= i < |fs| ensures Good(fs[i]) { EncodedIsGood(texts[i]); }
    if texts != [] {
      EncodedTexts(texts[..|texts| - 1]);
      assert fs[..|fs| - 1] == Encoded(texts[..|texts| - 1]);
      EncodedIsGood(texts[|texts| - 1]);
      GoodIsWhole(fs[|fs| - 1]);
    }
  }

  // ---- the receive loop ---------------------------------------------------

  /** Receiving the chunks one after another behind what the buffer holds, draining after each. */
  function Feed(start: seq<byte>, chunks: seq<seq<byte>>): Drained
  {
    if chunks == [] then Drained([], start, Open)
    else
      var p := Feed(start, chunks[..|chunks| - 1]);
      var d := Drain(p.rest + chunks[|chunks| - 1]);
      d.(texts := p.texts + d.texts)
  }

  /** However a stream of good frames, or a prefix of one, is cut into chunks, the same texts come out in the
      same order, the reader stays open, and the buffer always has room for more. */
  lemma {:induction false} ChunkIndependent(fs: seq<seq<byte>>, chunks: seq<seq<byte>>)
    requires AllGood(fs) && Concat(chunks) <= Concat(fs)
    ensures Feed([], chunks) == Drain(Concat(chunks))
    ensures Feed([], chunks).status == Open && |Feed([], chunks).rest| < BUFFER && Feed([], chunks).texts <= Texts(fs)
    ensures Concat(chunks) == Concat(fs) ==> Feed([], chunks) == Drained(Texts(fs), [], Open)
  {
    hide FirstFrame, Good, Drain, Texts;
    assert Concat(chunks) == Concat(fs)[..|Concat(chunks)|];
    PrefixDrains(fs, |Concat(chunks)|);
    if chunks == [] {
      EmptyDrains();
    } else {
      var front, last := chunks[..|chunks| - 1], chunks[|chunks| - 1];
      ChunkIndependent(fs, front);
      DrainResumes(Concat(front), last);
    }
    if Concat(chunks) == Concat(fs) { StreamDrains(fs); }
  }

  // ---- after a refused frame ----------------------------------------------

  /** A header the reader refuses: masked, or with a 64-bit length. */
  predicate RefusedHeader(b: seq<byte>)
  {
    |b| >= 2 && b[1] >= 127
  }

  lemma RefusedResets(gs: seq<seq<byte>>, bad: seq<byte>)
    requires AllGood(gs) && RefusedHeader(bad)
    ensures Drain(Concat(gs) + bad) == Drained(Texts(gs), [], Reset)
  {
    assert FirstFrame(bad) == Refused;
    hide FirstFrame, Good, Texts, Concat, Drain;
    StreamDrains(gs);
    DrainResumes(Concat(gs), bad);
    var none: seq<byte> := [];
    assert none + bad == bad;
    DrainRefuses(bad);
    assert Texts(gs) + [] == Texts(gs);
  }

  /** The frame is a text the handler is called with. */
  predicate CarriesText(f: seq<byte>)
  {
    FirstFrame(f).Whole? && FirstFrame(f).opcode == 1 && |FirstFrame(f).payload| + 1 < BUFFER
  }

  lemma {:induction false} NoTextsIff(fs: seq<seq<byte>>)
    ensures Texts(fs) == [] <==> forall i :: 0 <= i < |fs| ==> !CarriesText(fs[i])
  {
    hide FirstFrame;
    if fs != [] { NoTextsIff(fs[..|fs| - 1]); }
  }

  lemma TwoChunks(a: seq<byte>, b: seq<byte>)
    ensures Feed([], [a]) == Drain(a)
    ensures Feed([], [a, b]).texts == Drain(a).texts + Drain(Drain(a).rest + b).texts
  {
    hide Drain;
    var none: seq<seq<byte>> := [];
    assert none + [a] == [a] && [a] + [b] == [a, b] && [] + a == a;
    FeedNone([]);
    FeedSnoc([], none, a);
    FeedSnoc([], [a], b);
    var no: seq<Text> := [];
    assert no + Drain(a).texts == Drain(a).texts;
  }

  /**
   * After good frames and a refused one, more good frames: received behind them in the same piece, they are gone;
   * received apart, they are read. The two agree exactly when none of them carries a text.
   */
  lemma ResetForgets(gs: seq<seq<byte>>, bad: seq<byte>, fs: seq<seq<byte>>)
    requires AllGood(gs) && RefusedHeader(bad) && AllGood(fs)
    ensures var head := Concat(gs) + bad;
      && Feed([], [head]).status == Reset
      && Feed([], [head + Concat(fs)]).texts == Texts(gs)
      && Feed([], [head, Concat(fs)]).texts == Texts(gs) + Texts(fs)
      && (Feed([], [head + Concat(fs)]).texts == Feed([], [head, Concat(fs)]).texts
          <==> forall i :: 0 <= i < |fs| ==> !CarriesText(fs[i]))
  {
    hide FirstFrame, Drain, Texts, Concat, Feed, Good, CarriesText;
    var head := Concat(gs) + bad;
    RefusedResets(gs, bad);
    ResetStays(head, Concat(fs));
    TwoChunks(head, Concat(fs));
    TwoChunks(head + Concat(fs), []);
    var none: seq<byte> := [];
    assert none + Concat(fs) == Concat(fs);
    StreamDrains(fs);
    NoTextsIff(fs);
  }

  /** A masked frame and then a text: in one piece the text is lost, in two it is read. */
  lemma ResetExample()
    ensures var bad, good := [0x81, 0x80], [0x81, 0x01, 65];
      && Feed([], [bad]).status == Reset
      && Feed([], [bad + good]).texts == [] && Feed([], [bad, good]).texts == [[65]]
  {
    var bad: seq<byte>, good: seq<byte> := [0x81, 0x80], [0x81, 0x01, 65];
    assert FirstFrame(good) == Whole(1, good[2..3], 3) && good[2..3] == [65];
    assert Good(good);
    var none: seq<seq<byte>> := [];
    assert [good][..0] == none && Concat([good]) == [] + good == good;
    assert Texts([good]) == [] + [good[2..3]] == [[65]];
    ResetForgets(none, bad, [good]);
    assert Concat(none) + bad == bad && Texts(none) == [] && [] + [[65]] == [[65]];
    hide Feed;
  }

  /** Round trip through both ends: texts framed unmasked, sent in whatever pieces, are handed on as they were. */
  lemma RoundTrip(texts: seq<Text>, chunks: seq<seq<byte>>)
    requires forall i :: 0 <= i < |texts| ==> |texts[i]| <= BUFFER - 4
    requires Concat(chunks) == Concat(Encoded(texts))
    ensures Feed([], chunks) == Drained(texts, [], Open)
  {
    hide FirstFrame, Good, Drain, Frame, Feed;
    EncodedTexts(texts);
    ChunkIndependent(Encoded(texts), chunks);
  }

  /** A sending buffer at one end and a reader at the other: at every moment the reader has handed on the first
      so many of the texts queued, and all of them once the buffer is drained and everything arrived. */
  lemma EndToEnd(texts: seq<Text>, held: nat, cur: nat, b: seq<byte>, off: nat, frameAt: nat, wire: seq<byte>,
                 chunks: seq<seq<byte>>)
    requires forall i :: 0 <= i < |texts| ==> |texts[i]| <= BUFFER - 4
    requires StreamOk(Encoded(texts), held, cur, b, off, frameAt, wire) && Concat(chunks) <= wire
    ensures Feed([], chunks).status == Open && Feed([], chunks).texts <= texts
    ensures Concat(chunks) == wire && off == |b| ==> Feed([], chunks) == Drained(texts, [], Open)
  {
    hide Concat, Feed, Good, Texts;
    EncodedTexts(texts);
    StreamIsFrames(Encoded(texts), held, cur, b, off, frameAt, wire);
    if off == |b| { assert wire + b[off..] == wire; }
    ChunkIndependent(Encoded(texts), chunks);
  }

  class Rx {
    const pending: array<byte>
    var len: nat
    /** The texts handed to the message handler, in order. */
    var handled: seq<Text>

    ghost predicate Valid()
      reads this
    {
      pending.Length == BUFFER && len <= BUFFER
    }

    constructor ()
      ensures Valid() && fresh(pending) && len == 0 && handled == []
    {
      pending := new byte[BUFFER](_ => 0);
      len, handled := 0, [];
    }

    /** The first frame in the buffer, read in place. */
    method Peek() returns (f: First)
      requires Valid()
      ensures f == FirstFrame(pending[..len])
    {
      if len < 2 { return Short; }
      var plen, head := pending[1] as int, 2;
      if pending[1] >= 128 { return Refused; }
      if plen == 126 {
        if len < 4 { return Short; }
        plen := 256 * (pending[2] as int) + pending[3] as int;
        head := 4;
      } else if plen == 127 {
        return Refused;
      }
      if len < head + plen { return Short; }
      ghost var b := pending[..len];
      assert b[0] == pending[0] && b[1] == pending[1];
      var payload := pending[head..head + plen];
      SliceOfTake(pending[..], len, head, head + plen);
      assert pending[..][..len] == b && pending[..][head..head + plen] == payload;
      return Whole(pending[0] as int % 16, payload, head + plen);
    }

    /** The first frame is handed on, if it is a text that fits, and leaves the buffer. */
    method Consume(f: First)
      requires Valid() && f == FirstFrame(pending[..len]) && f.Whole?
      modifies this, pending
      ensures Valid() && len < old(len)
      ensures pending[..len] == old(pending[..len])[f.size..] && handled == old(handled) + Handed(f)
    {
      hide FirstFrame;
      ghost var b := pending[..len];
      if f.opcode == 1 && |f.payload| + 1 < BUFFER { handled := handled + [f.payload]; }
      MoveDown(pending, f.size, len);
      len := len - f.size;
      assert pending[..len] == b[f.size..];
    }

    /** drain_ws_pending. */
    method DrainPending() returns (status: Status)
      requires Valid()
      modifies this, pending
      ensures Valid()
      ensures var d := Drain(old(pending[..len]));
              status == d.status && pending[..len] == d.rest && handled == old(handled) + d.texts
    {
      hide FirstFrame, Handed, Drain;
      ghost var all := Drain(pending[..len]);
      while true
        invariant Valid()
        invariant all.status == Drain(pending[..len]).status && all.rest == Drain(pending[..len]).rest
        invariant handled + Drain(pending[..len]).texts == old(handled) + all.texts
        decreases len
      {
        ghost var b := pending[..len];
        var f := Peek();
        if f == Short { DrainWaits(b); return Open; }
        if f == Refused { DrainRefuses(b); len := 0; return Reset; }
        Consume(f);
        if f.opcode == 8 { DrainClosesWith(b); return Closed; }
        DrainHands(b);
      }
    }

    /** One recv of the bytes `c` and the drain after it. */
    method TakeChunk(c: seq<byte>) returns (status: Status)
      requires Valid() && |c| <= BUFFER - len
      modifies this, pending
      ensures Valid()
      ensures var d := Drain(old(pending[..len]) + c);
              status == d.status && pending[..len] == d.rest && handled == old(handled) + d.texts
    {
      hide Drain;
      CopyTo(c, pending, len);
      len := len + |c|;
      status := DrainPending();
    }

    /** The receive loop of rnet_lobby_pump: each recv takes what the socket offers and the buffer has room for,
        until the socket would block, the peer closes, or the buffer is full without a whole frame. `input` is all
        that will ever arrive, and sizes[i] what the socket has ready at the i-th call. */
    method Receive(input: seq<byte>, sizes: seq<nat>) returns (taken: nat, ended: Ended, ghost chunks: seq<seq<byte>>)
      requires Valid()
      modifies this, pending
      ensures Valid() && taken == |Concat(chunks)| && Received(old(pending[..len]), input, sizes, chunks, ended)
      ensures var d := Feed(old(pending[..len]), chunks);
              pending[..len] == d.rest && handled == old(handled) + d.texts
    {
      hide Drain, Concat, Feed, Going;
      ghost var start := pending[..len];
      taken, chunks := 0, [];
      FeedNone(start);
      ConcatNone();
      NoneGoing(start, input, sizes);
      var i := 0;
      while true
        invariant Valid() && i == |chunks| <= |sizes| && taken == |Concat(chunks)| && Concat(chunks) <= input
        invariant Going(start, input, sizes, chunks)
        invariant pending[..len] == Feed(start, chunks).rest && handled == old(handled) + Feed(start, chunks).texts
        invariant Feed(start, chunks).status != Closed
        decreases |sizes| - i
      {
        ghost var rest := pending[..len];
        assert |rest| == len;
        if len == BUFFER { return taken, Full, chunks; }
        if i == |sizes| || sizes[i] == 0 || taken == |input| { return taken, Blocked, chunks; }
        var n := sizes[i];
        if n > BUFFER - len { n := BUFFER - len; }
        if n > |input| - taken { n := |input| - taken; }
        var c := input[taken..taken + n];
        ConcatSnoc(chunks, c);
        FeedSnoc(start, chunks, c);
        GoingNext(start, input, sizes, chunks, c);
        assert input[..taken + n] == input[..taken] + c;
        var status := TakeChunk(c);
        chunks := chunks + [c];
        taken := taken + n;
        i := i + 1;
        if status == Closed { return taken, Gone, chunks; }
      }
    }
  }

  /** Why a receive loop ended: nothing more to read, a full buffer, or a close by the peer. */
  datatype Ended = Blocked | Full | Gone

  /** What a recv takes: what the socket has ready, the buffer has room for and is still to come. */
  function Offer(start: seq<byte>, input: seq<byte>, sizes: seq<nat>, chunks: seq<seq<byte>>): int
    requires |chunks| < |sizes|
  {
    var room := BUFFER - |Feed(start, chunks).rest|;
    var left := |input| - |Concat(chunks)|;
    var n := sizes[|chunks|];
    if n <= room && n <= left then n else if room <= left then room else left
  }

  /** Every recv so far took some bytes, as many as it could, and gave no reason to stop. */
  ghost predicate Going(start: seq<byte>, input: seq<byte>, sizes: seq<nat>, chunks: seq<seq<byte>>)
  {
    && |chunks| <= |sizes|
    && forall i :: 0 <= i < |chunks| ==>
         && 0 < |chunks[i]| == Offer(start, input, sizes, chunks[..i])
         && Feed(start, chunks[..i]).status != Closed && |Feed(start, chunks[..i]).rest| < BUFFER
  }

  /** The chunks are those of a receive loop over this input that ended for this reason. */
  ghost predicate Received(start: seq<byte>, input: seq<byte>, sizes: seq<nat>, chunks: seq<seq<byte>>, ended: Ended)
  {
    && Going(start, input, sizes, chunks) && Concat(chunks) <= input
    && var d := Feed(start, chunks);
       match ended
       case Full => |d.rest| == BUFFER
       case Gone => d.status == Closed
       case Blocked =>
         && d.status != Closed && |d.rest| < BUFFER
         && (|chunks| == |sizes| || sizes[|chunks|] == 0 || |Concat(chunks)| == |input|)
  }

  lemma NoneGoing(start: seq<byte>, input: seq<byte>, sizes: seq<nat>)
    ensures Going(start, input, sizes, [])
  {
  }

  lemma GoingNext(start: seq<byte>, input: seq<byte>, sizes: seq<nat>, chunks: seq<seq<byte>>, c: seq<byte>)
    requires Going(start, input, sizes, chunks) && |chunks| < |sizes| && 0 < |c| == Offer(start, input, sizes, chunks)
    requires Feed(start, chunks).status != Closed && |Feed(start, chunks).rest| < BUFFER
    ensures Going(start, input, sizes, chunks + [c])
  {
    hide Feed, Offer;
    var next := chunks + [c];
    forall i | 0 <= i < |next|
      ensures 0 < |next[i]| == Offer(start, input, sizes, next[..i])
      ensures Feed(start, next[..i]).status != Closed && |Feed(start, next[..i]).rest| < BUFFER
    {
      if i < |chunks| { assert next[..i] == chunks[..i] && next[i] == chunks[i]; } else { assert next[..i] == chunks; }
    }
  }

  lemma SliceOfTake(s: seq<byte>, n: nat, i: nat, j: nat)
    requires i <= j <= n <= |s|
    ensures s[..n][i..j] == s[i..j]
  {
  }

  lemma FeedNone(start: seq<byte>)
    ensures Feed(start, []) == Drained([], start, Open)
  {
  }

  lemma FeedSnoc(start: seq<byte>, chunks: seq<seq<byte>>, c: seq<byte>)
    ensures var p := Feed(start, chunks);
            var d := Drain(p.rest + c);
            Feed(start, chunks + [c]) == d.(texts := p.texts + d.texts)
  {
    hide Drain;
    assert (chunks + [c])[..|chunks|] == chunks;
  }

  lemma DrainClosesWith(b: seq<byte>)
    requires FirstFrame(b).Whole? && FirstFrame(b).opcode == 8
    ensures Drain(b) == Drained(Handed(FirstFrame(b)), b[FirstFrame(b).size..], Closed)
  {
  }
}
