/** Masking every listed word of a line: the in-place scan and what it covers. */
module ChatScan {
  import opened Common
  import opened ChatMatch

  const STAR: CodePoint := 42

  datatype Range = Range(start: nat, end: nat)

  /** load_words() drops empty entries. */
  ghost predicate Listed(words: seq<Word>)
  {
    forall k :: 0 <= k < |words| ==> words[k].cp != []
  }

  // ---- the specification --------------------------------------------------

  /** The longest match at a position among the first k words, 0 for none. */
  ghost function Best(words: seq<Word>, t: seq<CodePoint>, orig: seq<CodePoint>, at: nat, k: nat): (end: nat)
    requires Listed(words) && at <= |t| == |orig| && k <= |words|
    ensures end > 0 ==> at < end <= |t|
    ensures forall j :: 0 <= j < k ==> MatchEnd(words[j], t, orig, at) <= end
    ensures end > 0 ==> exists j :: 0 <= j < k && MatchEnd(words[j], t, orig, at) == end
  {
    if k == 0 then 0
    else
      var b := Best(words, t, orig, at, k - 1);
      var e := MatchEnd(words[k - 1], t, orig, at);
      if e > b then e else b
  }

  ghost function Mask(s: seq<CodePoint>, a: nat, e: nat): (r: seq<CodePoint>)
    ensures |r| == |s|
    ensures forall k :: 0 <= k < |s| ==> r[k] == if a <= k < e then STAR else s[k]
  {
    seq(|s|, k requires 0 <= k < |s| => if a <= k < e then STAR else s[k])
  }

  /** The ranges masked from position i on. Whole-word edges are judged on the line masked so far. */
  ghost function Scan(words: seq<Word>, t: seq<CodePoint>, orig: seq<CodePoint>, i: nat): (rs: seq<Range>)
    requires Listed(words) && i <= |t| == |orig|
    decreases |t| - i
  {
    if i == |t| then []
    else if !IsLetter(t[i]) then Scan(words, t, orig, i + 1)
    else
      var e := Best(words, t, orig, i, |words|);
      if e == 0 then Scan(words, t, orig, i + 1)
      else [Range(i, e)] + Scan(words, t, Mask(orig, i, e), e)
  }

  ghost function Stars(s: seq<CodePoint>, rs: seq<Range>): (r: seq<CodePoint>)
    ensures |r| == |s|
    decreases |rs|
  {
    if rs == [] then s else Stars(Mask(s, rs[0].start, rs[0].end), rs[1..])
  }

  ghost predicate Covers(rs: seq<Range>, k: nat)
  {
    exists j :: 0 <= j < |rs| && rs[j].start <= k < rs[j].end
  }

  // ---- what the scan does -------------------------------------------------

  /** A character is a star when some range covers it and itself otherwise. */
  lemma {:induction false} StarsExactly(s: seq<CodePoint>, rs: seq<Range>, k: nat)
    requires k < |s|
    ensures Stars(s, rs)[k] == if Covers(rs, k) then STAR else s[k]
    decreases |rs|
  {
    if rs != [] {
      var rest := rs[1..];
      StarsExactly(Mask(s, rs[0].start, rs[0].end), rest, k);
      if Covers(rest, k) {
        var j :| 0 <= j < |rest| && rest[j].start <= k < rest[j].end;
        assert rs[j + 1] == rest[j];
      } else if Covers(rs, k) {
        var j :| 0 <= j < |rs| && rs[j].start <= k < rs[j].end;
        assert j > 0 ==> rs[j] == rest[j - 1];
      }
    }
  }

  /** A range starts on a letter and spells a listed word. */
  ghost predicate Justified(words: seq<Word>, t: seq<CodePoint>, r: Range)
  {
    && r.start < r.end <= |t| && IsLetter(t[r.start])
    && exists j :: 0 <= j < |words| && Spelled(words[j].cp, t, r.start, r.end)
  }

  lemma BestSpells(words: seq<Word>, t: seq<CodePoint>, orig: seq<CodePoint>, at: nat)
    requires Listed(words) && at < |t| == |orig| && IsLetter(t[at]) && Best(words, t, orig, at, |words|) > 0
    ensures Justified(words, t, Range(at, Best(words, t, orig, at, |words|)))
  {
    hide Best, IsLetter, Greedy, Spelled;
    var e := Best(words, t, orig, at, |words|);
    var j :| 0 <= j < |words| && MatchEnd(words[j], t, orig, at) == e;
    GreedySpells(words[j].cp, t, at);
  }

  /** The ranges are all justified and follow one another from position i on. */
  ghost predicate InOrder(words: seq<Word>, t: seq<CodePoint>, rs: seq<Range>, i: nat)
  {
    && (forall k :: 0 <= k < |rs| ==> Justified(words, t, rs[k]) && i <= rs[k].start)
    && (forall j, k :: 0 <= j < k < |rs| ==> rs[j].end <= rs[k].start)
  }

  lemma OrderCons(words: seq<Word>, t: seq<CodePoint>, r: Range, rs: seq<Range>)
    requires Justified(words, t, r) && InOrder(words, t, rs, r.end)
    ensures InOrder(words, t, [r] + rs, r.start)
  {
    var all := [r] + rs;
    assert r.start <= r.end;
    hide Justified;
    forall k | 0 <= k < |all| ensures Justified(words, t, all[k]) && r.start <= all[k].start {
      assert k > 0 ==> all[k] == rs[k - 1];
    }
  }

  lemma OrderWidens(words: seq<Word>, t: seq<CodePoint>, rs: seq<Range>, i: nat)
    requires InOrder(words, t, rs, i + 1)
    ensures InOrder(words, t, rs, i)
  {
    hide Justified;
  }

  lemma OrderNone(words: seq<Word>, t: seq<CodePoint>, i: nat)
    ensures InOrder(words, t, [], i)
  {
  }

  /** Nothing is masked that does not spell a listed word, and ranges follow one another. */
  lemma {:induction false} ScanSound(words: seq<Word>, t: seq<CodePoint>, orig: seq<CodePoint>, i: nat)
    requires Listed(words) && i <= |t| == |orig|
    ensures InOrder(words, t, Scan(words, t, orig, i), i)
    decreases |t| - i
  {
    hide Best, IsLetter, Justified, Mask, InOrder;
    if i < |t| {
      var e := Best(words, t, orig, i, |words|);
      if !IsLetter(t[i]) || e == 0 {
        ScanSound(words, t, orig, i + 1);
        OrderWidens(words, t, Scan(words, t, orig, i + 1), i);
      } else {
        BestSpells(words, t, orig, i);
        ScanSound(words, t, Mask(orig, i, e), e);
        OrderCons(words, t, Range(i, e), Scan(words, t, Mask(orig, i, e), e));
      }
    } else {
      OrderNone(words, t, i);
    }
  }

  /** w is found wherever it is spelled: it may stand inside words and has no separator past its first letter. */
  predicate Searched(w: Word)
  {
    w.anywhere && w.cp != [] && Clean(w.cp) && IsLetter(w.cp[0])
  }

  lemma SpellingStarts(w: seq<CodePoint>, t: seq<CodePoint>, at: nat, end: nat)
    requires Spelled(w, t, at, end)
    ensures w != [] && at < end <= |t| && t[at] == w[0]
  {
    var starts, runs :| Spelling(w, t, at, end, starts, runs);
    assert LetterRun(w, t, 0, starts[0], runs[0]);
    assert LetterRun(w, t, |w| - 1, starts[|w| - 1], runs[|w| - 1]);
    StartsRise(w, t, at, starts, runs, |w| - 1);
  }

  lemma {:induction false} StartsRise(w: seq<CodePoint>, t: seq<CodePoint>, at: nat, starts: seq<nat>, runs: seq<nat>,
                                      j: nat)
    requires Partial(w, t, at, starts, runs) && j < |starts|
    ensures at <= starts[j]
  {
    if j > 0 {
      StartsRise(w, t, at, starts, runs, j - 1);
      assert Gap(w, t, starts[j - 1] + runs[j - 1], starts[j]);
    }
  }

  lemma BestReaches(words: seq<Word>, t: seq<CodePoint>, orig: seq<CodePoint>, w: Word, at: nat, end: nat)
    requires Listed(words) && w in words && Searched(w) && |t| == |orig| && at <= |t| && Spelled(w.cp, t, at, end)
    ensures Best(words, t, orig, at, |words|) >= end
  {
    hide Best, Greedy, Spelled, Clean;
    MatchIsLongest(w.cp, t, at);
    var j :| 0 <= j < |words| && words[j] == w;
    assert MatchEnd(words[j], t, orig, at) >= end;
  }

  /** The character a spelling starts on is masked; a range that starts there covers the whole spelling. */
  ghost predicate Caught(rs: seq<Range>, at: nat, end: nat)
  {
    exists j :: 0 <= j < |rs| && rs[j].start <= at < rs[j].end && (rs[j].start == at ==> end <= rs[j].end)
  }

  lemma CaughtLater(r: Range, rs: seq<Range>, at: nat, end: nat)
    requires Caught(rs, at, end)
    ensures Caught([r] + rs, at, end)
  {
    var j :| 0 <= j < |rs| && rs[j].start <= at < rs[j].end && (rs[j].start == at ==> end <= rs[j].end);
    assert ([r] + rs)[j + 1] == rs[j];
  }

  /** No spelling of a searched word survives the scan. */
  lemma {:induction false} ScanCatches(words: seq<Word>, t: seq<CodePoint>, orig: seq<CodePoint>, i: nat, w: Word,
                                       at: nat, end: nat)
    requires Listed(words) && i <= at <= |t| == |orig|
    requires w in words && Searched(w) && Spelled(w.cp, t, at, end)
    ensures Caught(Scan(words, t, orig, i), at, end)
    decreases |t| - i
  {
    hide Best, Mask, Spelled, IsLetter;
    SpellingStarts(w.cp, t, at, end);
    var e := Best(words, t, orig, i, |words|);
    if i == at { BestReaches(words, t, orig, w, at, end); }
    if IsLetter(t[i]) && e > 0 {
      var rest := Scan(words, t, Mask(orig, i, e), e);
      var all := Scan(words, t, orig, i);
      assert all == [Range(i, e)] + rest && all[0] == Range(i, e);
      if at < e {
        assert Caught(all, at, end);
      } else {
        ScanCatches(words, t, Mask(orig, i, e), e, w, at, end);
        CaughtLater(Range(i, e), rest, at, end);
      }
    } else {
      ScanCatches(words, t, orig, i + 1, w, at, end);
    }
  }

  /** A starred character lies in a spelling of a listed word; any other is as it was. */
  lemma FilterKeeps(words: seq<Word>, t: seq<CodePoint>, orig: seq<CodePoint>, k: nat)
    requires Listed(words) && k < |t| == |orig|
    ensures Stars(orig, Scan(words, t, orig, 0))[k] == orig[k]
            || (Stars(orig, Scan(words, t, orig, 0))[k] == STAR
                && exists r: Range :: r in Scan(words, t, orig, 0) && r.start <= k < r.end && Justified(words, t, r))
  {
    hide Scan, Stars, Justified, Listed;
    var rs := Scan(words, t, orig, 0);
    ScanSound(words, t, orig, 0);
    StarsExactly(orig, rs, k);
    if Covers(rs, k) {
      var j :| 0 <= j < |rs| && rs[j].start <= k < rs[j].end;
      assert rs[j] in rs && Justified(words, t, rs[j]);
    }
  }

  /** No searched word is left whole: wherever it was spelled, its first character is now a star. */
  lemma FilterCatches(words: seq<Word>, t: seq<CodePoint>, orig: seq<CodePoint>, w: Word, at: nat, end: nat)
    requires Listed(words) && |t| == |orig| && w in words && Searched(w) && Spelled(w.cp, t, at, end)
    ensures Caught(Scan(words, t, orig, 0), at, end)
    ensures at < |t| && Stars(orig, Scan(words, t, orig, 0))[at] == STAR
  {
    hide Scan, Stars, Searched, Spelled, Listed;
    var rs := Scan(words, t, orig, 0);
    SpellingStarts(w.cp, t, at, end);
    ScanCatches(words, t, orig, 0, w, at, end);
    StarsExactly(orig, rs, at);
    assert Covers(rs, at);
  }

  /** A whole-word entry is matched exactly when its longest spelling has no letter next to it. */
  lemma WholeWordExact(w: Word, t: seq<CodePoint>, orig: seq<CodePoint>, at: nat, end: nat)
    requires !w.anywhere && w.cp != [] && Clean(w.cp) && at <= |t| == |orig| && end > 0
    ensures MatchEnd(w, t, orig, at) == end <==>
            && Spelled(w.cp, t, at, end) && (forall e: nat :: Spelled(w.cp, t, at, e) ==> e <= end)
            && (at > 0 ==> !IsLetter(orig[at - 1])) && (end < |orig| ==> !IsLetter(orig[end]))
  {
    hide Greedy, Spelled, Clean, IsLetter;
    MatchIsLongest(w.cp, t, at);
  }

  // ---- the method ---------------------------------------------------------

  lemma FirstLetterDecides(w: Word, t: seq<CodePoint>, orig: seq<CodePoint>, at: nat)
    requires at < |t| == |orig| && w.cp != [] && w.cp[0] != t[at]
    ensures MatchEnd(w, t, orig, at) == 0
  {
    assert Greedy(w.cp, t, at, 1) == Advance(w.cp, t, 0, at);
    NoneStays(w.cp, t, at, 1);
  }

  /** The inner loop of filter_cps(): the longest match at i. */
  method LongestAt(words: seq<Word>, t: seq<CodePoint>, orig: seq<CodePoint>, i: nat) returns (best: nat)
    requires Listed(words) && i < |t| == |orig|
    ensures best == Best(words, t, orig, i, |words|)
  {
    hide MatchEnd;
    best := 0;
    var k := 0;
    while k < |words|
      invariant 0 <= k <= |words| && best == Best(words, t, orig, i, k)
    {
      var w := words[k];
      var end := 0;
      if w.cp[0] == t[i] {
        end := MatchAt(w, t, orig, i);
      } else {
        FirstLetterDecides(w, t, orig, i);
      }
      if end > best { best := end; }
      k := k + 1;
    }
  }

  /** filter_cps(): masks the line in place and counts the ranges. */
  method FilterCps(words: seq<Word>, folded: seq<CodePoint>, orig: array<CodePoint>) returns (hits: nat)
    requires Listed(words) && |folded| == orig.Length
    modifies orig
    ensures orig[..] == Stars(old(orig[..]), Scan(words, folded, old(orig[..]), 0))
    ensures hits == |Scan(words, folded, old(orig[..]), 0)|
  {
    hide Best, IsLetter, Listed;
    hits := 0;
    var n := |folded|;
    ghost var all := Scan(words, folded, orig[..], 0);
    ghost var result := Stars(orig[..], all);
    var i := 0;
    while i < n
      invariant 0 <= i <= n
      invariant result == Stars(orig[..], Scan(words, folded, orig[..], i))
      invariant hits + |Scan(words, folded, orig[..], i)| == |all|
    {
      if !IsLetter(folded[i]) {
        i := i + 1;
      } else {
        ghost var was := orig[..];
        var best := LongestAt(words, folded, orig[..], i);
        if best > 0 {
          forall m | i <= m < best { orig[m] := STAR; }
          assert orig[..] == Mask(was, i, best);
          ghost var rest := Scan(words, folded, orig[..], best);
          assert Scan(words, folded, was, i) == [Range(i, best)] + rest;
          assert ([Range(i, best)] + rest)[1..] == rest;
          hits := hits + 1;
          i := best;
        } else {
          i := i + 1;
        }
      }
    }
  }
}
