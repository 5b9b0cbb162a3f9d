/** Whole-word entries: where the filter catches them, and where it takes part of another word for one. */
module ChatWords {
  import opened Common
  import opened ChatMatch
  import opened ChatScan

  const ALPHABET := "abcdefghijklmnopqrstuvwxyz"

  /** Below 0x80 the letters are the small ones. */
  lemma SmallLetters(c: CodePoint)
    requires c < 0x80
    ensures IsLetter(c) <==> exists k :: 0 <= k < 26 && ALPHABET[k] as int == c
  {
    assert forall k :: 0 <= k < 26 ==> ALPHABET[k] as int == 97 + k;
    if IsLetter(c) { assert ALPHABET[c - 97] as int == c; }
  }

  // ---- the line -------------------------------------------------------------

  /** No letter stands right before `at`. */
  predicate FreeLeft(line: seq<CodePoint>, at: nat)
    requires at <= |line|
  {
    at > 0 ==> !IsLetter(line[at - 1])
  }

  /** No letter stands at `end`. */
  predicate FreeRight(line: seq<CodePoint>, end: nat)
  {
    end < |line| ==> !IsLetter(line[end])
  }

  /** Stars are no letters: what is free stays free. */
  lemma MaskKeepsFree(line: seq<CodePoint>, a: nat, e: nat, at: nat, end: nat)
    requires at <= |line| && FreeLeft(line, at) && FreeRight(line, end)
    ensures FreeLeft(Mask(line, a, e), at) && FreeRight(Mask(line, a, e), end)
  {
  }

  // ---- every free-standing spelling is caught -------------------------------

  /** A whole-word entry the scan looks for: it starts on a letter and has no separator past it. */
  predicate Whole(w: Word)
  {
    !w.anywhere && w.cp != [] && Clean(w.cp) && IsLetter(w.cp[0])
  }

  /** The longest spelling of w at a position. */
  ghost predicate Longest(w: seq<CodePoint>, t: seq<CodePoint>, at: nat, end: nat)
  {
    Spelled(w, t, at, end) && forall e: nat :: Spelled(w, t, at, e) ==> e <= end
  }

  lemma BestTakesWhole(words: seq<Word>, t: seq<CodePoint>, line: seq<CodePoint>, w: Word, at: nat, end: nat)
    requires Listed(words) && w in words && Whole(w) && at <= |t| == |line| && 0 < end <= |t|
    requires Longest(w.cp, t, at, end) && FreeLeft(line, at) && FreeRight(line, end)
    ensures Best(words, t, line, at, |words|) >= end
  {
    hide Best, MatchEnd, Spelled, Clean, IsLetter;
    WholeWordExact(w, t, line, at, end);
    var j :| 0 <= j < |words| && words[j] == w;
    assert MatchEnd(words[j], t, line, at) == end;
  }

  lemma {:induction false} ScanCatchesWhole(words: seq<Word>, t: seq<CodePoint>, line: seq<CodePoint>, i: nat, w: Word,
                                            at: nat, end: nat)
    requires Listed(words) && i <= at <= |t| == |line|
    requires w in words && Whole(w) && Longest(w.cp, t, at, end) && FreeLeft(line, at) && FreeRight(line, end)
    ensures Caught(Scan(words, t, line, i), at, end)
    decreases |t| - i
  {
    hide Best, Mask, Longest, Whole, Listed, IsLetter, FreeLeft, FreeRight, Caught, MatchEnd, Greedy, Spelled;
    WholeStarts(w, t, at, end);
    var e := Best(words, t, line, i, |words|);
    if i == at { BestTakesWhole(words, t, line, w, at, end); }
    if IsLetter(t[i]) && e > 0 {
      var rest := Scan(words, t, Mask(line, i, e), e);
      var all := Scan(words, t, line, i);
      assert all == [Range(i, e)] + rest;
      if at < e {
        CaughtFirst(Range(i, e), rest, at, end);
      } else {
        MaskKeepsFree(line, i, e, at, end);
        ScanCatchesWhole(words, t, Mask(line, i, e), e, w, at, end);
        CaughtLater(Range(i, e), rest, at, end);
      }
    } else {
      ScanCatchesWhole(words, t, line, i + 1, w, at, end);
    }
  }

  lemma WholeStarts(w: Word, t: seq<CodePoint>, at: nat, end: nat)
    requires Whole(w) && Longest(w.cp, t, at, end)
    ensures at < end <= |t| && IsLetter(t[at])
  {
    hide IsLetter;
    SpellingStarts(w.cp, t, at, end);
  }

  lemma CaughtFirst(r: Range, rs: seq<Range>, at: nat, end: nat)
    requires r.start <= at < r.end && (r.start == at ==> end <= r.end)
    ensures Caught([r] + rs, at, end)
  {
    assert ([r] + rs)[0] == r;
  }

  /** No free-standing spelling of a whole-word entry is left: its first character is now a star. */
  lemma WholeWordCaught(words: seq<Word>, t: seq<CodePoint>, line: seq<CodePoint>, w: Word, at: nat, end: nat)
    requires Listed(words) && at <= |t| == |line| && w in words && Whole(w) && Longest(w.cp, t, at, end)
    requires (at > 0 ==> !IsLetter(line[at - 1])) && (end < |line| ==> !IsLetter(line[end]))
    ensures Caught(Scan(words, t, line, 0), at, end)
    ensures at < |t| && Stars(line, Scan(words, t, line, 0))[at] == STAR
  {
    hide Scan, Stars, Whole, Spelled, Listed, IsLetter;
    var rs := Scan(words, t, line, 0);
    SpellingStarts(w.cp, t, at, end);
    ScanCatchesWhole(words, t, line, 0, w, at, end);
    StarsExactly(line, rs, at);
    assert Covers(rs, at);
  }

  // ---- and nothing else ------------------------------------------------------

  /** A range was starred for a word that may stand anywhere, or for a whole-word entry with no letter on either
      side of it, where a range that ends right before it has become stars. */
  ghost predicate Licensed(words: seq<Word>, t: seq<CodePoint>, line: seq<CodePoint>, rs: seq<Range>, k: nat)
    requires k < |rs| && |t| == |line|
  {
    && rs[k].start < rs[k].end <= |t|
    && exists j :: 0 <= j < |words| && Takes(words[j], t, line, rs, k)
  }

  ghost predicate Takes(w: Word, t: seq<CodePoint>, line: seq<CodePoint>, rs: seq<Range>, k: nat)
    requires k < |rs| && |t| == |line| && rs[k].start <= |t|
  {
    && Spelled(w.cp, t, rs[k].start, rs[k].end)
    && (w.anywhere || (FreeRight(line, rs[k].end)
                       && (FreeLeft(line, rs[k].start) || (k > 0 && rs[k - 1].end == rs[k].start))))
  }

  lemma BestLicensed(words: seq<Word>, t: seq<CodePoint>, line: seq<CodePoint>, i: nat, rs: seq<Range>)
    requires Listed(words) && i < |t| == |line| && Best(words, t, line, i, |words|) > 0
    requires rs != [] && rs[0] == Range(i, Best(words, t, line, i, |words|))
    ensures Licensed(words, t, line, rs, 0)
  {
    hide Best, IsLetter, Greedy, Spelled;
    var j :| 0 <= j < |words| && MatchEnd(words[j], t, line, i) == rs[0].end;
    GreedySpells(words[j].cp, t, i);
    assert Takes(words[j], t, line, rs, 0);
  }

  /** What a masked line says about a later range, said about the line itself. */
  lemma LicensedBehind(words: seq<Word>, t: seq<CodePoint>, line: seq<CodePoint>, r: Range, rest: seq<Range>, k: nat)
    requires |t| == |line| && r.start < r.end <= |t| && k < |rest| && InOrder(words, t, rest, r.end)
    requires Licensed(words, t, Mask(line, r.start, r.end), rest, k)
    ensures Licensed(words, t, line, [r] + rest, k + 1)
  {
    hide Spelled, IsLetter;
    var m, rs := Mask(line, r.start, r.end), [r] + rest;
    assert rs[k + 1] == rest[k] && r.end <= rest[k].start && (k > 0 ==> rs[k] == rest[k - 1]);
    var j :| 0 <= j < |words| && Takes(words[j], t, m, rest, k);
    if k > 0 { assert Justified(words, t, rest[k - 1]) && rest[k - 1].end <= rest[k].start; }
    assert Takes(words[j], t, line, rs, k + 1);
  }

  /** Every range the filter stars is licensed by the line as it came in. */
  lemma {:induction false} RangesLicensed(words: seq<Word>, t: seq<CodePoint>, line: seq<CodePoint>, i: nat)
    requires Listed(words) && i <= |t| == |line|
    ensures forall k :: 0 <= k < |Scan(words, t, line, i)| ==> Licensed(words, t, line, Scan(words, t, line, i), k)
    decreases |t| - i
  {
    hide Best, IsLetter, Licensed, Mask, Listed, InOrder;
    if i < |t| {
      var e := Best(words, t, line, i, |words|);
      if !IsLetter(t[i]) || e == 0 {
        RangesLicensed(words, t, line, i + 1);
      } else {
        var m := Mask(line, i, e);
        RangesLicensed(words, t, m, e);
        ScanSound(words, t, m, e);
        AllLicensed(words, t, line, Range(i, e), Scan(words, t, m, e));
      }
    }
  }

  lemma AllLicensed(words: seq<Word>, t: seq<CodePoint>, line: seq<CodePoint>, r: Range, rest: seq<Range>)
    requires Listed(words) && r.start < |t| == |line| && 0 < r.end == Best(words, t, line, r.start, |words|)
    requires InOrder(words, t, rest, r.end)
    requires forall k :: 0 <= k < |rest| ==> Licensed(words, t, Mask(line, r.start, r.end), rest, k)
    ensures forall k :: 0 <= k < |[r] + rest| ==> Licensed(words, t, line, [r] + rest, k)
  {
    hide Best, Licensed, Mask, InOrder, Listed;
    var rs := [r] + rest;
    BestLicensed(words, t, line, r.start, rs);
    assert r.end <= |t|;
    forall k | 0 < k < |rs| ensures Licensed(words, t, line, rs, k) {
      LicensedBehind(words, t, line, r, rest, k - 1);
    }
  }

  // ---- capitals --------------------------------------------------------------

  predicate Capital(c: CodePoint) { 65 <= c <= 90 }

  /** Free-standing to a reader: no letter of either case on either side. */
  predicate Alone(line: seq<CodePoint>, at: nat, end: nat)
  {
    && (0 < at <= |line| ==> !IsLetter(line[at - 1]) && !Capital(line[at - 1]))
    && (end < |line| ==> !IsLetter(line[end]) && !Capital(line[end]))
  }

  /** The edges are judged on the line before case folding, where a capital is no letter: a whole-word match
      stands alone exactly when no capital touches it. */
  lemma AloneIff(w: Word, t: seq<CodePoint>, line: seq<CodePoint>, at: nat)
    requires !w.anywhere && w.cp != [] && at <= |t| == |line| && MatchEnd(w, t, line, at) > 0
    ensures var end := MatchEnd(w, t, line, at);
      Alone(line, at, end)
      <==> !(at > 0 && Capital(line[at - 1])) && !(end < |line| && Capital(line[end]))
  {
    hide Greedy, IsLetter;
  }

  const ASS := Word([97, 115, 115], false)

  /** "class" is left alone; "CLASS", folded to the same letters, is starred inside. */
  lemma CapitalExample()
    ensures Scan([ASS], [99, 108, 97, 115, 115], [99, 108, 97, 115, 115], 0) == []
    ensures Scan([ASS], [99, 108, 97, 115, 115], [67, 76, 65, 83, 83], 0) == [Range(2, 5)]
  {
    var t := [99, 108, 97, 115, 115];
    var small, capital := [99, 108, 97, 115, 115], [67, 76, 65, 83, 83];
    AssAt(small);
    AssAt(capital);
    hide MatchEnd;
    OneWord(t, small);
    OneWord(t, capital);
    hide Best, Mask;
    var m := Mask(capital, 2, 5);
    assert Scan([ASS], t, m, 5) == [];
    assert Scan([ASS], t, capital, 2) == [Range(2, 5)];
    assert Scan([ASS], t, capital, 1) == [Range(2, 5)];
    assert Scan([ASS], t, small, 5) == [] && Scan([ASS], t, small, 4) == [] && Scan([ASS], t, small, 3) == [];
    assert Scan([ASS], t, small, 2) == [] && Scan([ASS], t, small, 1) == [];
  }

  lemma AssAt(line: seq<CodePoint>)
    requires |line| == 5
    ensures var t := [99, 108, 97, 115, 115];
      && (forall i :: 0 <= i < 5 && i != 2 ==> MatchEnd(ASS, t, line, i) == 0)
      && MatchEnd(ASS, t, line, 2) == if IsLetter(line[1]) then 0 else 5
  {
    hide IsLetter;
    var t := [99, 108, 97, 115, 115];
    forall i | 0 <= i < 5 && i != 2 ensures MatchEnd(ASS, t, line, i) == 0 { FirstLetterDecides(ASS, t, line, i); }
    assert Greedy(ASS.cp, t, 2, 1) == Some(3) && Greedy(ASS.cp, t, 2, 2) == Some(4);
    assert Greedy(ASS.cp, t, 2, 3) == Some(5);
  }

  lemma OneWord(t: seq<CodePoint>, line: seq<CodePoint>)
    requires |t| == |line|
    ensures forall i :: 0 <= i < |t| ==> Best([ASS], t, line, i, 1) == MatchEnd(ASS, t, line, i)
  {
    hide MatchEnd;
    forall i | 0 <= i < |t| ensures Best([ASS], t, line, i, 1) == MatchEnd(ASS, t, line, i) {
      assert Best([ASS], t, line, i, 0) == 0;
    }
  }
}
