/** The chat filter's UTF-8 and its entry point on a NUL-terminated buffer. */
module ChatText {
  import opened Common
  import opened ChatMatch
  import opened ChatScan

  /** Four-byte forms reach this far; the decoder does not stop at U+10FFFF. */
  const CODE_LIMIT := 0x20_0000
  const MAX_TEXT := 1024

  predicate Continues(b: byte) { 0x80 <= b < 0xC0 }

  datatype Decoded = Malformed | Decoded(cp: CodePoint, size: nat)

  /** Six more bits: what a continuation byte adds. */
  function Append(cp: CodePoint, b: byte): (r: CodePoint)
    requires Continues(b)
    ensures r / 64 == cp && 0x80 + r % 64 == b
  {
    64 * cp + (b - 0x80)
  }

  /** The continuation byte that carries the low six bits. */
  function Low(cp: CodePoint): (b: byte)
    ensures Continues(b) && Append(cp / 64, b) == cp
  {
    0x80 + cp % 64
  }

  lemma LowOfAppend(cp: CodePoint, b: byte)
    requires Continues(b)
    ensures Low(Append(cp, b)) == b && Append(cp, b) / 64 == cp
  {
  }

  predicate Leads(s: seq<byte>, n: nat)
  {
    1 <= n <= |s| && forall k :: 1 <= k < n ==> Continues(s[k])
  }

  /** utf8_decode(): the first code point of s and how many bytes it takes. */
  function Decode(s: seq<byte>): (d: Decoded)
    ensures d.Decoded? ==> 1 <= d.size <= 4 && d.size <= |s| && d.cp < CODE_LIMIT
  {
    if s == [] then Malformed
    else if s[0] < 0x80 then Decoded(s[0], 1)
    else if 0xC0 <= s[0] < 0xE0 && Leads(s, 2) then
      Decoded(Append(s[0] - 0xC0, s[1]), 2)
    else if 0xE0 <= s[0] < 0xF0 && Leads(s, 3) then
      Decoded(Append(Append(s[0] - 0xE0, s[1]), s[2]), 3)
    else if 0xF0 <= s[0] < 0xF8 && Leads(s, 4) then
      Decoded(Append(Append(Append(s[0] - 0xF0, s[1]), s[2]), s[3]), 4)
    else Malformed
  }

  /** utf8_encode(). */
  function Encode(cp: CodePoint): (s: seq<byte>)
    requires cp < CODE_LIMIT
    ensures 1 <= |s| <= 4
  {
    if cp < 0x80 then [cp]
    else if cp < 0x800 then [0xC0 + cp / 64, Low(cp)]
    else if cp < 0x10000 then [0xE0 + cp / 64 / 64, Low(cp / 64), Low(cp)]
    else [0xF0 + cp / 64 / 64 / 64, Low(cp / 64 / 64), Low(cp / 64), Low(cp)]
  }

  /** What follows an encoded code point does not change how it is read. */
  lemma EncodeRoundTrip(cp: CodePoint, more: seq<byte>)
    requires cp < CODE_LIMIT
    ensures Decode(Encode(cp) + more) == Decoded(cp, |Encode(cp)|)
  {
    hide Append, Low;
    var e := Encode(cp);
    var s := e + more;
    assert forall k :: 0 <= k < |e| ==> s[k] == e[k];
    assert cp >= 0x80 ==> Leads(s, |e|);
  }

  /** One code point of each width, as RFC 3629 writes them. */
  lemma EncodeExamples()
    ensures Encode(0x41) == [0x41] && Encode(0xE9) == [0xC3, 0xA9]
    ensures Encode(0x20AC) == [0xE2, 0x82, 0xAC] && Encode(0x10348) == [0xF0, 0x90, 0x8D, 0x88]
  {
  }

  /** How many bytes the shortest form of a code point takes. */
  function Width(cp: CodePoint): nat
  {
    if cp < 0x80 then 1 else if cp < 0x800 then 2 else if cp < 0x10000 then 3 else 4
  }

  lemma DecodedWidth(s: seq<byte>)
    requires Decode(s).Decoded?
    ensures Width(Decode(s).cp) <= Decode(s).size
  {
  }

  lemma SameBytes(s: seq<byte>)
    requires Decode(s).Decoded? && Width(Decode(s).cp) == Decode(s).size
    ensures Encode(Decode(s).cp) == s[..Decode(s).size]
  {
    hide Append, Low;
    var d := Decode(s);
    if d.size == 2 {
      LowOfAppend(s[0] - 0xC0, s[1]);
    } else if d.size == 3 {
      LowOfAppend(s[0] - 0xE0, s[1]);
      LowOfAppend(Append(s[0] - 0xE0, s[1]), s[2]);
    } else if d.size == 4 {
      var a := Append(s[0] - 0xF0, s[1]);
      LowOfAppend(s[0] - 0xF0, s[1]);
      LowOfAppend(a, s[2]);
      LowOfAppend(Append(a, s[2]), s[3]);
    }
  }

  /** Re-encoding is never longer, and gives the same bytes exactly for the shortest form. */
  lemma DecodeThenEncode(s: seq<byte>)
    requires Decode(s).Decoded?
    ensures |Encode(Decode(s).cp)| <= Decode(s).size
    ensures Encode(Decode(s).cp) == s[..Decode(s).size] <==> Width(Decode(s).cp) == Decode(s).size
  {
    hide Decode, Low;
    DecodedWidth(s);
    assert |Encode(Decode(s).cp)| == Width(Decode(s).cp);
    if Width(Decode(s).cp) == Decode(s).size { SameBytes(s); }
  }

  // ---- whole lines --------------------------------------------------------

  function DecodeAll(s: seq<byte>): (r: Option<seq<CodePoint>>)
    ensures r.Some? ==> |r.value| <= |s| && forall k :: 0 <= k < |r.value| ==> r.value[k] < CODE_LIMIT
  {
    if s == [] then Some([])
    else
      var d := Decode(s);
      if d.Malformed? then None
      else
        var rest := DecodeAll(s[d.size..]);
        if rest.None? then None else Some([d.cp] + rest.value)
  }

  predicate Encodable(cps: seq<CodePoint>)
  {
    forall k :: 0 <= k < |cps| ==> cps[k] < CODE_LIMIT
  }

  function EncodeAll(cps: seq<CodePoint>): (s: seq<byte>)
    requires Encodable(cps)
    ensures |s| >= |cps|
  {
    if cps == [] then [] else Encode(cps[0]) + EncodeAll(cps[1..])
  }

  /** Decoding undoes encoding on every line. */
  lemma {:induction false} LineRoundTrip(cps: seq<CodePoint>)
    requires Encodable(cps)
    ensures DecodeAll(EncodeAll(cps)) == Some(cps)
  {
    hide Decode, Encode;
    if cps != [] {
      var s := EncodeAll(cps);
      var rest := EncodeAll(cps[1..]);
      EncodeRoundTrip(cps[0], rest);
      LineRoundTrip(cps[1..]);
      assert s[|Encode(cps[0])|..] == rest;
      assert cps == [cps[0]] + cps[1..];
    }
  }

  /** No code point of the line grew over the one it replaces. */
  ghost predicate NoWider(a: seq<CodePoint>, b: seq<CodePoint>)
    requires Encodable(a) && Encodable(b)
  {
    |a| == |b| && forall k :: 0 <= k < |a| ==> |Encode(a[k])| <= |Encode(b[k])|
  }

  lemma {:induction false} EncodedShrinks(a: seq<CodePoint>, b: seq<CodePoint>)
    requires Encodable(a) && Encodable(b) && NoWider(a, b)
    ensures |EncodeAll(a)| <= |EncodeAll(b)|
  {
    hide Encode;
    if a != [] { EncodedShrinks(a[1..], b[1..]); }
  }

  lemma {:induction false} DecodedShrinks(s: seq<byte>)
    requires DecodeAll(s).Some?
    ensures |EncodeAll(DecodeAll(s).value)| <= |s|
  {
    hide Decode, Encode;
    if s != [] {
      var d := Decode(s);
      DecodeThenEncode(s);
      DecodedShrinks(s[d.size..]);
      var cps := DecodeAll(s).value;
      assert cps[1..] == DecodeAll(s[d.size..]).value;
    }
  }

  /** Masking keeps the line encodable and lets it grow nowhere. */
  lemma MaskedShrinks(cps: seq<CodePoint>, rs: seq<Range>)
    requires Encodable(cps)
    ensures Encodable(Stars(cps, rs)) && |EncodeAll(Stars(cps, rs))| <= |EncodeAll(cps)|
  {
    hide Stars, EncodeAll;
    var m := Stars(cps, rs);
    forall k | 0 <= k < |cps| ensures m[k] < CODE_LIMIT && |Encode(m[k])| <= |Encode(cps[k])| {
      StarsExactly(cps, rs, k);
    }
    assert Encodable(m) && NoWider(m, cps);
    EncodedShrinks(m, cps);
  }

  // ---- rnet_chat_filter_apply() -------------------------------------------

  /** Where the C string in a buffer ends: its first NUL, or the end of the buffer. */
  function Length(buf: seq<byte>): (n: nat)
    ensures n <= |buf| && (n < |buf| ==> buf[n] == 0) && forall k :: 0 <= k < n ==> buf[k] != 0
  {
    if buf == [] || buf[0] == 0 then 0 else 1 + Length(buf[1..])
  }

  /** The code points of a line the filter will look at. */
  function Readable(line: seq<byte>): (r: Option<seq<CodePoint>>)
  {
    var d := DecodeAll(line);
    if d.Some? && |d.value| <= MAX_TEXT then d else None
  }

  function Folded(fold: CodePoint -> CodePoint, cps: seq<CodePoint>): (t: seq<CodePoint>)
    ensures |t| == |cps|
  {
    seq(|cps|, k requires 0 <= k < |cps| => fold(cps[k]))
  }

  /** The ranges of a line that are masked. */
  ghost function Hits(words: seq<Word>, fold: CodePoint -> CodePoint, cps: seq<CodePoint>): seq<Range>
    requires Listed(words)
  {
    Scan(words, Folded(fold, cps), cps, 0)
  }

  /** How many code points fit in front of the terminator when o bytes are used. */
  function Fitting(cps: seq<CodePoint>, o: nat, cap: nat): (q: nat)
    requires Encodable(cps)
    ensures q <= |cps|
  {
    if cps == [] || o + |Encode(cps[0])| + 1 > cap then 0
    else 1 + Fitting(cps[1..], o + |Encode(cps[0])|, cap)
  }

  lemma {:induction false} AllFit(cps: seq<CodePoint>, o: nat, cap: nat)
    requires Encodable(cps) && o + |EncodeAll(cps)| < cap
    ensures Fitting(cps, o, cap) == |cps|
  {
    hide Encode;
    if cps != [] { AllFit(cps[1..], o + |Encode(cps[0])|, cap); }
  }

  lemma EncodesNothing()
    ensures EncodeAll([]) == []
  {
  }

  lemma {:induction false} EncodeAppend(cps: seq<CodePoint>, cp: CodePoint)
    requires Encodable(cps) && cp < CODE_LIMIT
    ensures EncodeAll(cps + [cp]) == EncodeAll(cps) + Encode(cp)
  {
    hide Encode;
    if cps == [] {
      assert EncodeAll([cp]) == Encode(cp) + EncodeAll([]);
    } else {
      EncodeAppend(cps[1..], cp);
      assert (cps + [cp])[1..] == cps[1..] + [cp];
    }
  }

  /** The decoding loop, which gives up on a malformed byte or a line of too many code points. */
  method ReadLine(line: seq<byte>) returns (r: Option<seq<CodePoint>>)
    ensures r == Readable(line)
  {
    hide Decode;
    var cps: seq<CodePoint> := [];
    var i := 0;
    assert line[i..] == line;
    assert DecodeAll(line).Some? ==> cps + DecodeAll(line).value == DecodeAll(line).value;
    while i < |line| && |cps| < MAX_TEXT
      invariant 0 <= i <= |line| && |cps| <= MAX_TEXT
      invariant DecodeAll(line) ==
                (var rest := DecodeAll(line[i..]); if rest.None? then None else Some(cps + rest.value))
      decreases |line| - i
    {
      var d := Decode(line[i..]);
      if d.Malformed? { return None; }
      assert line[i..][d.size..] == line[i + d.size..];
      ghost var rest := DecodeAll(line[i + d.size..]);
      if rest.Some? { assert cps + ([d.cp] + rest.value) == cps + [d.cp] + rest.value; }
      cps := cps + [d.cp];
      i := i + d.size;
    }
    if i < |line| {
      assert DecodeAll(line[i..]).Some? ==> |DecodeAll(line[i..]).value| > 0;
      return None;
    }
    var none: seq<CodePoint> := [];
    assert line[i..] == [] && cps + none == cps;
    return Some(cps);
  }

  /** memcpy of one code point. */
  method PutAt(text: array<byte>, o: nat, e: seq<byte>)
    requires o + |e| <= text.Length
    modifies text
    ensures text[..o + |e|] == old(text[..o]) + e && text[o + |e|..] == old(text[o + |e|..])
  {
    forall k | 0 <= k < |e| { text[o + k] := e[k]; }
  }

  lemma FittingNext(cps: seq<CodePoint>, i: nat, o: nat, cap: nat)
    requires Encodable(cps) && i < |cps| && o + |Encode(cps[i])| + 1 <= cap
    ensures Fitting(cps[i..], o, cap) == 1 + Fitting(cps[i + 1..], o + |Encode(cps[i])|, cap)
  {
    hide Encode;
    assert cps[i..][1..] == cps[i + 1..];
  }

  lemma FittingStops(cps: seq<CodePoint>, i: nat, o: nat, cap: nat)
    requires Encodable(cps) && i <= |cps| && (i < |cps| ==> o + |Encode(cps[i])| + 1 > cap)
    ensures Fitting(cps[i..], o, cap) == 0
  {
    hide Encode;
  }

  /** The loop that writes the line back; returns how many bytes it wrote. */
  method WriteLine(text: array<byte>, cps: seq<CodePoint>) returns (o: nat)
    requires text.Length > 0 && Encodable(cps)
    modifies text
    ensures o < text.Length && text[..o] == EncodeAll(cps[..Fitting(cps, 0, text.Length)])
    ensures text[o..] == old(text[o..])
  {
    hide Encode, EncodeAll, Fitting;
    o := 0;
    var i := 0;
    assert cps[..0] == [] && cps[0..] == cps;
    EncodesNothing();
    while i < |cps| && o + |Encode(cps[i])| + 1 <= text.Length
      invariant 0 <= i <= |cps| && o < text.Length && text[..o] == EncodeAll(cps[..i])
      invariant text[o..] == old(text[o..])
      invariant i + Fitting(cps[i..], o, text.Length) == Fitting(cps, 0, text.Length)
    {
      var e := Encode(cps[i]);
      EncodeAppend(cps[..i], cps[i]);
      FittingNext(cps, i, o, text.Length);
      assert cps[..i + 1] == cps[..i] + [cps[i]];
      assert text[o..][|e|..] == text[o + |e|..] && old(text[o..])[|e|..] == old(text[o + |e|..]);
      PutAt(text, o, e);
      o := o + |e|;
      i := i + 1;
    }
    FittingStops(cps, i, o, text.Length);
  }

  /** The line written over the buffer, then the terminator; the rest of the buffer stays. */
  ghost predicate Overwritten(before: seq<byte>, after: seq<byte>, m: seq<CodePoint>)
    requires Encodable(m)
  {
    var w := EncodeAll(m[..Fitting(m, 0, |before|)]);
    |w| < |before| && after == w + [0] + before[|w| + 1..]
  }

  method Overwrite(text: array<byte>, m: seq<CodePoint>)
    requires text.Length > 0 && Encodable(m)
    modifies text
    ensures Overwritten(old(text[..]), text[..], m)
  {
    hide EncodeAll, Fitting, Encodable;
    ghost var was := text[..];
    var o := WriteLine(text, m);
    ghost var w := text[..o];
    assert text[o..] == was[o..];
    text[o] := 0;
    assert text[..] == w + [0] + was[o + 1..];
  }

  /** All code points of a masked terminated line fit, in no more bytes than it had. */
  lemma WrittenWhole(line: seq<byte>, rs: seq<Range>, cap: nat)
    requires DecodeAll(line).Some? && |line| < cap
    ensures var m := Stars(DecodeAll(line).value, rs);
      Encodable(m) && Fitting(m, 0, cap) == |m| && |EncodeAll(m)| <= |line|
  {
    hide Stars, EncodeAll, Fitting, DecodeAll;
    MaskedShrinks(DecodeAll(line).value, rs);
    DecodedShrinks(line);
    AllFit(Stars(DecodeAll(line).value, rs), 0, cap);
  }

  /** The line in a buffer. */
  function Line(buf: seq<byte>): seq<byte>
  {
    buf[..Length(buf)]
  }

  /** rnet_chat_filter_apply(): masks the C string in the buffer, or leaves every byte as it was. */
  method Apply(enabled: bool, words: seq<Word>, fold: CodePoint -> CodePoint, text: array<byte>) returns (hits: nat)
    requires Listed(words)
    modifies text
    ensures text.Length == 0 || !enabled || words == [] || Readable(Line(old(text[..]))).None? ==> hits == 0
    ensures text.Length > 0 && enabled && words != [] && Readable(Line(old(text[..]))).Some? ==>
              hits == |Hits(words, fold, Readable(Line(old(text[..]))).value)|
    ensures hits == 0 ==> text[..] == old(text[..])
    ensures hits > 0 ==>
              Readable(Line(old(text[..]))).Some?
              && var cps := Readable(Line(old(text[..]))).value;
              Encodable(Stars(cps, Hits(words, fold, cps)))
              && Overwritten(old(text[..]), text[..], Stars(cps, Hits(words, fold, cps)))
  {
    hide Stars, Overwritten, Listed, Length, DecodeAll, EncodeAll;
    hits := 0;
    if text.Length == 0 || !enabled || words == [] { return; }
    ghost var was := text[..];
    var line := FindLine(text);
    var cps := ReadLine(line);
    if cps.None? { return; }
    var orig := new CodePoint[|cps.value|](k requires 0 <= k < |cps.value| => cps.value[k]);
    assert orig[..] == cps.value;
    ghost var rs := Hits(words, fold, cps.value);
    hits := FilterCps(words, Folded(fold, cps.value), orig);
    assert text[..] == was;
    if hits > 0 {
      MaskedShrinks(cps.value, rs);
      Overwrite(text, orig[..]);
    }
  }

  /** The strnlen() loop. */
  method FindLine(text: array<byte>) returns (line: seq<byte>)
    ensures line == Line(text[..])
  {
    var len := 0;
    while len < text.Length && text[len] != 0
      invariant 0 <= len <= text.Length && forall k :: 0 <= k < len ==> text[k] != 0
    {
      len := len + 1;
    }
    ghost var n := Length(text[..]);
    assert n >= len && n <= len;
    line := text[..len];
  }

  // ---- what re-encoding changes -------------------------------------------

  /** Every code point of the line is in its shortest form. */
  predicate Shortest(s: seq<byte>)
    requires DecodeAll(s).Some?
  {
    s == [] || (Width(Decode(s).cp) == Decode(s).size && Shortest(s[Decode(s).size..]))
  }

  /** A line is re-encoded as it was exactly when all of it is in shortest form. */
  lemma {:induction false} LineReencodesIff(s: seq<byte>)
    requires DecodeAll(s).Some?
    ensures EncodeAll(DecodeAll(s).value) == s <==> Shortest(s)
  {
    hide Decode, Encode, Width;
    if s != [] {
      var d := Decode(s);
      var rest := s[d.size..];
      var cps := DecodeAll(s).value;
      assert cps[1..] == DecodeAll(rest).value;
      DecodeThenEncode(s);
      DecodedShrinks(rest);
      LineReencodesIff(rest);
      assert s == s[..d.size] + rest;
      var e, more := Encode(d.cp), EncodeAll(DecodeAll(rest).value);
      if e + more == s {
        assert |e| == d.size && |more| == |rest|;
        assert e == (e + more)[..d.size] && more == (e + more)[d.size..];
      }
    }
  }

  /** The code points in front of the first 0. */
  function BeforeNul(m: seq<CodePoint>): (r: seq<CodePoint>)
    ensures r <= m && 0 !in r && (r == m <==> 0 !in m)
  {
    if m == [] || m[0] == 0 then [] else [m[0]] + BeforeNul(m[1..])
  }

  lemma EncodesNul(cp: CodePoint)
    requires cp < CODE_LIMIT
    ensures if cp == 0 then Encode(cp) == [0] else 0 !in Encode(cp)
  {
  }

  /** In a buffer that holds an encoded line and its terminator, a reader sees the code points before the first 0. */
  lemma {:induction false} LineSeen(m: seq<CodePoint>, rest: seq<byte>)
    requires Encodable(m)
    ensures Encodable(BeforeNul(m)) && Line(EncodeAll(m) + [0] + rest) == EncodeAll(BeforeNul(m))
  {
    hide Encode;
    var buf := EncodeAll(m) + [0] + rest;
    if m == [] {
      assert buf[0] == 0;
    } else {
      EncodesNul(m[0]);
      var e := Encode(m[0]);
      var tail := EncodeAll(m[1..]) + [0] + rest;
      assert buf == e + tail;
      if m[0] == 0 {
        assert buf[0] == 0;
      } else {
        LineSeen(m[1..], rest);
        LengthPast(e, tail);
        assert buf[..|e| + Length(tail)] == e + tail[..Length(tail)];
      }
    }
  }

  lemma {:induction false} LengthPast(e: seq<byte>, tail: seq<byte>)
    requires 0 !in e
    ensures Length(e + tail) == |e| + Length(tail)
  {
    if e == [] {
      assert e + tail == tail;
    } else {
      assert (e + tail)[0] == e[0] && (e + tail)[1..] == e[1..] + tail;
      LengthPast(e[1..], tail);
    }
  }

  lemma {:induction false} EncodeAllInjective(a: seq<CodePoint>, b: seq<CodePoint>)
    requires Encodable(a) && Encodable(b) && EncodeAll(a) == EncodeAll(b)
    ensures a == b
  {
    LineRoundTrip(a);
    LineRoundTrip(b);
  }

  /**
   * After a terminated line was masked in its buffer, a reader sees the masked line up to its first code point 0;
   * it sees the whole masked line exactly when there is none.
   */
  lemma SeenAfter(before: seq<byte>, after: seq<byte>, rs: seq<Range>)
    requires Length(before) < |before| && DecodeAll(Line(before)).Some?
    requires Encodable(Stars(DecodeAll(Line(before)).value, rs))
    requires Overwritten(before, after, Stars(DecodeAll(Line(before)).value, rs))
    ensures var m := Stars(DecodeAll(Line(before)).value, rs);
      && Encodable(BeforeNul(m)) && Line(after) == EncodeAll(BeforeNul(m))
      && (Line(after) == EncodeAll(m) <==> 0 !in m)
  {
    hide Stars, EncodeAll, DecodeAll, Fitting, BeforeNul;
    var m := Stars(DecodeAll(Line(before)).value, rs);
    WrittenWhole(Line(before), rs, |before|);
    assert m[..|m|] == m;
    var w := EncodeAll(m);
    LineSeen(m, before[|w| + 1..]);
    if Line(after) == w { EncodeAllInjective(m, BeforeNul(m)); }
  }

  // ---- a line that is cut -------------------------------------------------

  const LISTED := [Word([97, 98], true)]

  /** "ab", an overlong NUL, "c". */
  const CUT_LINE: seq<byte> := [97, 98, 0xC0, 0x80, 99]
  const CUT_POINTS: seq<CodePoint> := [97, 98, 0, 99]

  lemma DecodesNext(s: seq<byte>, d: Decoded, rest: seq<byte>, more: seq<CodePoint>)
    requires s != [] && Decode(s) == d && d.Decoded? && s[d.size..] == rest && DecodeAll(rest) == Some(more)
    ensures DecodeAll(s) == Some([d.cp] + more)
  {
  }

  lemma CutPoints()
    ensures DecodeAll(CUT_LINE) == Some(CUT_POINTS) && !Shortest(CUT_LINE)
  {
    var s3: seq<byte> := [99];
    var s2: seq<byte> := [0xC0, 0x80, 99];
    var s1: seq<byte> := [98, 0xC0, 0x80, 99];
    var p3: seq<CodePoint>, p2: seq<CodePoint>, p1: seq<CodePoint> := [99], [0, 99], [98, 0, 99];
    assert s3[1..] == [] && s2[2..] == s3 && s1[1..] == s2 && CUT_LINE[1..] == s1;
    assert [99] + [] == p3 && [0] + p3 == p2 && [98] + p2 == p1 && [97] + p1 == CUT_POINTS;
    assert Leads(s2, 2);
    DecodesNext(s3, Decoded(99, 1), [], []);
    DecodesNext(s2, Decoded(0, 2), s3, p3);
    DecodesNext(s1, Decoded(98, 1), s2, p2);
    DecodesNext(CUT_LINE, Decoded(97, 1), s1, p1);
    assert !Shortest(s2);
  }

  lemma CutMatch(orig: seq<CodePoint>, at: nat)
    requires |orig| == 4 && at < 4
    ensures MatchEnd(LISTED[0], CUT_POINTS, orig, at) == if at == 0 then 2 else 0
  {
    var w, t := LISTED[0].cp, CUT_POINTS;
    assert Greedy(w, t, at, 1) == Advance(w, t, 0, at);
    if at == 0 {
      assert SkipRun(t, 1, 97) == 1 && SkipRun(t, 2, 98) == 2;
      assert Greedy(w, t, 0, 2) == Advance(w, t, 1, 1);
    } else {
      NoneStays(w, t, at, 1);
    }
  }

  lemma CutBest(orig: seq<CodePoint>, at: nat)
    requires |orig| == 4 && at < 4
    ensures Listed(LISTED) && Best(LISTED, CUT_POINTS, orig, at, 1) == if at == 0 then 2 else 0
  {
    hide MatchEnd;
    CutMatch(orig, at);
    assert Best(LISTED, CUT_POINTS, orig, at, 0) == 0;
  }

  lemma CutRanges()
    ensures Listed(LISTED) && Scan(LISTED, CUT_POINTS, CUT_POINTS, 0) == [Range(0, 2)]
    ensures Stars(CUT_POINTS, [Range(0, 2)]) == [STAR, STAR, 0, 99]
  {
    hide Best;
    CutBest(CUT_POINTS, 0);
    var m := Mask(CUT_POINTS, 0, 2);
    assert m == [STAR, STAR, 0, 99];
    CutBest(m, 3);
    assert Scan(LISTED, CUT_POINTS, m, 4) == [];
    assert Scan(LISTED, CUT_POINTS, m, 3) == [];
    assert Scan(LISTED, CUT_POINTS, m, 2) == [];
    assert [Range(0, 2)][1..] == [];
  }

  /** A line with a hit and an overlong NUL: the filter masks the word and the rest of the line is gone. */
  method CutExample() returns (hits: nat, line: seq<byte>)
    ensures hits == 1 && line == [STAR, STAR] && |line| < |CUT_LINE|
  {
    var text := new byte[6](i requires 0 <= i < 6 => if i < 5 then CUT_LINE[i] else 0);
    ghost var before := text[..];
    assert before == CUT_LINE + [0];
    CutPoints();
    CutRanges();
    CutSeen(before);
    hide Scan, Stars, DecodeAll, Overwritten, Encodable;
    hits := Apply(true, LISTED, c => c, text);
    SeenAfter(before, text[..], [Range(0, 2)]);
    line := FindLine(text);
  }

  lemma CutSeen(before: seq<byte>)
    requires before == CUT_LINE + [0]
    ensures Length(before) == 5 && Line(before) == CUT_LINE && Folded(c => c, CUT_POINTS) == CUT_POINTS
    ensures BeforeNul([STAR, STAR, 0, 99]) == [STAR, STAR] && Encodable([STAR, STAR])
    ensures EncodeAll([STAR, STAR]) == [STAR, STAR]
  {
    assert before[5] == 0;
    var m: seq<CodePoint> := [STAR, STAR, 0, 99];
    assert m[1..] == [STAR, 0, 99] && m[1..][1..] == [0, 99];
    assert BeforeNul(m[1..][1..]) == [];
    assert BeforeNul(m[1..]) == [STAR];
    var two: seq<CodePoint> := [STAR, STAR];
    assert two[1..] == [STAR] && two[1..][1..] == [];
    assert EncodeAll([STAR]) == [STAR];
  }
}
