/** The chat filter's matcher, against the language of spellings it is meant to recognise. */
module ChatMatch {
  import opened Common

  type CodePoint = nat

  datatype Word = Word(cp: seq<CodePoint>, anywhere: bool)

  predicate IsLetter(c: CodePoint)
  {
    if c < 0x80 then 97 <= c <= 122
    else !(0x2000 <= c <= 0x206F) && !(0x3000 <= c <= 0x303F) && !(0xFF00 <= c <= 0xFF0F)
         && c != 0xA0 && c != 0xB7 && c != 0xBF && c != 0xA1
  }

  predicate IsSeparator(c: CodePoint)
  {
    c == 32 || c == 46 || c == 45 || c == 95 || c == 42 || c == 39 || c == 44 || c == 0x2019 || c == 0xA0
  }

  // ---- the language -------------------------------------------------------

  /** Letter j of w stands r times from s on; once only when the word goes on with the same letter. */
  ghost predicate LetterRun(w: seq<CodePoint>, t: seq<CodePoint>, j: nat, s: nat, r: nat)
    requires j < |w|
  {
    && r >= 1 && s + r <= |t|
    && (forall k :: s <= k < s + r ==> t[k] == w[j])
    && (j + 1 < |w| && w[j + 1] == w[j] ==> r == 1)
  }

  /** Nothing, or separators inside a word of four or more letters. */
  ghost predicate Gap(w: seq<CodePoint>, t: seq<CodePoint>, a: nat, b: nat)
  {
    a <= b <= |t| && (|w| < 4 ==> a == b) && forall k :: a <= k < b ==> IsSeparator(t[k])
  }

  /** The first letters of w, spelled from at on: where each starts and how often it stands. */
  ghost predicate Partial(w: seq<CodePoint>, t: seq<CodePoint>, at: nat, starts: seq<nat>, runs: seq<nat>)
  {
    && |starts| == |runs| <= |w|
    && (starts != [] ==> starts[0] == at)
    && (forall j :: 0 <= j < |starts| ==> LetterRun(w, t, j, starts[j], runs[j]))
    && (forall j :: 1 <= j < |starts| ==> Gap(w, t, starts[j - 1] + runs[j - 1], starts[j]))
  }

  ghost predicate Spelling(w: seq<CodePoint>, t: seq<CodePoint>, at: nat, end: nat, starts: seq<nat>, runs: seq<nat>)
  {
    && Partial(w, t, at, starts, runs)
    && 0 < |starts| == |w|
    && end == starts[|w| - 1] + runs[|w| - 1]
  }

  /** t[at..end] spells w. */
  ghost predicate Spelled(w: seq<CodePoint>, t: seq<CodePoint>, at: nat, end: nat)
  {
    exists starts, runs :: Spelling(w, t, at, end, starts, runs)
  }

  // ---- the greedy scan ----------------------------------------------------

  function SkipSeparators(t: seq<CodePoint>, p: nat): (q: nat)
    requires p <= |t|
    ensures p <= q <= |t| && (q == |t| || !IsSeparator(t[q]))
    ensures forall k :: p <= k < q ==> IsSeparator(t[k])
    decreases |t| - p
  {
    if p < |t| && IsSeparator(t[p]) then SkipSeparators(t, p + 1) else p
  }

  function SkipRun(t: seq<CodePoint>, p: nat, c: CodePoint): (q: nat)
    requires p <= |t|
    ensures p <= q <= |t| && (q == |t| || t[q] != c)
    ensures forall k :: p <= k < q ==> t[k] == c
    decreases |t| - p
  {
    if p < |t| && t[p] == c then SkipRun(t, p + 1, c) else p
  }

  /** Where letter j is looked for once the scan stands at p. */
  function Seek(w: seq<CodePoint>, t: seq<CodePoint>, j: nat, p: nat): (q: nat)
    requires p <= |t|
    ensures p <= q <= |t|
  {
    if j > 0 && |w| >= 4 then SkipSeparators(t, p) else p
  }

  function Advance(w: seq<CodePoint>, t: seq<CodePoint>, j: nat, p: nat): (r: Option<nat>)
    requires j < |w| && p <= |t|
    ensures r.Some? ==> p < r.value <= |t|
  {
    var q := Seek(w, t, j, p);
    if q == |t| || t[q] != w[j] then None
    else if j + 1 < |w| && w[j + 1] == w[j] then Some(q + 1)
    else Some(SkipRun(t, q + 1, w[j]))
  }

  /** Where the scan stands after j letters. */
  function Greedy(w: seq<CodePoint>, t: seq<CodePoint>, at: nat, j: nat): (r: Option<nat>)
    requires j <= |w| && at <= |t|
    ensures r.Some? ==> at + j <= r.value <= |t|
  {
    if j == 0 then Some(at)
    else
      var p := Greedy(w, t, at, j - 1);
      if p.None? then None else Advance(w, t, j - 1, p.value)
  }

  predicate EdgeBefore(orig: seq<CodePoint>, at: nat)
    requires at <= |orig|
  {
    at == 0 || !IsLetter(orig[at - 1])
  }

  predicate EdgeAfter(orig: seq<CodePoint>, end: nat)
  {
    end >= |orig| || !IsLetter(orig[end])
  }

  /** What match_at() returns: the end of the match, 0 for none. */
  function MatchEnd(w: Word, t: seq<CodePoint>, orig: seq<CodePoint>, at: nat): (end: nat)
    requires at <= |t| == |orig| && w.cp != []
    ensures end > 0 ==> at < end <= |t|
  {
    var p := Greedy(w.cp, t, at, |w.cp|);
    if p.None? || (!w.anywhere && !(EdgeBefore(orig, at) && EdgeAfter(orig, p.value))) then 0 else p.value
  }

  /** The loop that passes separators. */
  method PassSeparators(t: seq<CodePoint>, from: nat) returns (p: nat)
    requires from <= |t|
    ensures p == SkipSeparators(t, from)
  {
    p := from;
    while p < |t| && IsSeparator(t[p])
      invariant from <= p <= |t| && SkipSeparators(t, p) == SkipSeparators(t, from)
    {
      p := p + 1;
    }
  }

  /** The loop that absorbs repeats. */
  method AbsorbRepeats(t: seq<CodePoint>, from: nat, want: CodePoint) returns (p: nat)
    requires from <= |t|
    ensures p == SkipRun(t, from, want)
  {
    p := from;
    while p < |t| && t[p] == want
      invariant from <= p <= |t| && SkipRun(t, p, want) == SkipRun(t, from, want)
    {
      p := p + 1;
    }
  }

  /** The body of the letter loop. */
  method TakeLetter(w: seq<CodePoint>, t: seq<CodePoint>, j: nat, from: nat) returns (r: Option<nat>)
    requires j < |w| && from <= |t|
    ensures r == Advance(w, t, j, from)
  {
    hide IsSeparator, SkipRun, SkipSeparators;
    var want := w[j];
    var p := from;
    if j > 0 && |w| >= 4 { p := PassSeparators(t, p); }
    if p >= |t| || t[p] != want { return None; }
    p := p + 1;
    if j + 1 >= |w| || w[j + 1] != want { p := AbsorbRepeats(t, p, want); }
    return Some(p);
  }

  method MatchAt(w: Word, t: seq<CodePoint>, orig: seq<CodePoint>, at: nat) returns (end: nat)
    requires at <= |t| == |orig| && w.cp != []
    ensures end == MatchEnd(w, t, orig, at)
  {
    hide IsLetter, Advance;
    if !w.anywhere && at > 0 && IsLetter(orig[at - 1]) { return 0; }
    var p, j := at, 0;
    while j < |w.cp|
      invariant 0 <= j <= |w.cp| && p <= |t| && Greedy(w.cp, t, at, j) == Some(p)
    {
      var next := TakeLetter(w.cp, t, j, p);
      assert Greedy(w.cp, t, at, j + 1) == next;
      if next.None? {
        NoneStays(w.cp, t, at, j + 1);
        return 0;
      }
      p := next.value;
      j := j + 1;
    }
    if !w.anywhere && p < |t| && IsLetter(orig[p]) { return 0; }
    return p;
  }

  lemma {:induction false} NoneStays(w: seq<CodePoint>, t: seq<CodePoint>, at: nat, j: nat)
    requires j <= |w| && at <= |t| && Greedy(w, t, at, j).None?
    ensures Greedy(w, t, at, |w|).None?
    decreases |w| - j
  {
    if j < |w| { NoneStays(w, t, at, j + 1); }
  }

  // ---- soundness ----------------------------------------------------------

  lemma AdvanceRun(w: seq<CodePoint>, t: seq<CodePoint>, j: nat, p: nat)
    requires j < |w| && p <= |t| && Advance(w, t, j, p).Some?
    ensures Seek(w, t, j, p) < Advance(w, t, j, p).value
    ensures LetterRun(w, t, j, Seek(w, t, j, p), Advance(w, t, j, p).value - Seek(w, t, j, p))
    ensures j > 0 ==> Gap(w, t, p, Seek(w, t, j, p))
  {
    hide IsSeparator;
  }

  lemma PartialGrows(w: seq<CodePoint>, t: seq<CodePoint>, at: nat, starts: seq<nat>, runs: seq<nat>, q: nat, r: nat)
    requires Partial(w, t, at, starts, runs) && |starts| < |w|
    requires LetterRun(w, t, |starts|, q, r)
    requires if starts == [] then q == at else Gap(w, t, starts[|starts| - 1] + runs[|runs| - 1], q)
    ensures Partial(w, t, at, starts + [q], runs + [r])
  {
    hide LetterRun, Gap;
  }

  /** Whatever the scan walked over is a spelling, for every word. */
  lemma {:induction false} GreedyPartial(w: seq<CodePoint>, t: seq<CodePoint>, at: nat, j: nat)
    returns (starts: seq<nat>, runs: seq<nat>)
    requires j <= |w| && at <= |t| && Greedy(w, t, at, j).Some?
    ensures Partial(w, t, at, starts, runs) && |starts| == j
    ensures j > 0 ==> starts[j - 1] + runs[j - 1] == Greedy(w, t, at, j).value
  {
    hide LetterRun, Gap, SkipRun, SkipSeparators, Advance;
    if j == 0 {
      starts, runs := [], [];
    } else {
      var p := Greedy(w, t, at, j - 1).value;
      var q := Seek(w, t, j - 1, p);
      var e := Greedy(w, t, at, j).value;
      AdvanceRun(w, t, j - 1, p);
      var s0, r0 := GreedyPartial(w, t, at, j - 1);
      starts, runs := s0 + [q], r0 + [e - q];
      PartialGrows(w, t, at, s0, r0, q, e - q);
    }
  }

  lemma GreedySpells(w: seq<CodePoint>, t: seq<CodePoint>, at: nat)
    requires w != [] && at <= |t| && Greedy(w, t, at, |w|).Some?
    ensures Spelled(w, t, at, Greedy(w, t, at, |w|).value)
  {
    var starts, runs := GreedyPartial(w, t, at, |w|);
    assert Spelling(w, t, at, Greedy(w, t, at, |w|).value, starts, runs);
  }

  // ---- completeness -------------------------------------------------------

  /** No letter after the first is a separator, unless the word is too short to skip any. */
  predicate Clean(w: seq<CodePoint>)
  {
    |w| < 4 || forall j :: 1 <= j < |w| ==> !IsSeparator(w[j])
  }

  /** From a run of letter j the scan finds the start of letter j + 1, wherever the run was left. */
  lemma SeekFinds(w: seq<CodePoint>, t: seq<CodePoint>, j: nat, s: nat, r: nat, next: nat)
    requires Clean(w) && j + 1 < |w| && LetterRun(w, t, j, s, r)
    requires Gap(w, t, s + r, next) && next < |t| && t[next] == w[j + 1]
    ensures var p := if w[j + 1] == w[j] then s + 1 else SkipRun(t, s + 1, w[j]);
            Seek(w, t, j + 1, p) == next
  {
    hide SkipRun, SkipSeparators;
    var p := if w[j + 1] == w[j] then s + 1 else SkipRun(t, s + 1, w[j]);
    assert p <= next;
    assert s + r <= p;
    if |w| >= 4 {
      assert !IsSeparator(t[next]);
      assert SkipSeparators(t, p) == next;
    }
  }

  /** A letter's run ends no later than where the scan leaves that letter. */
  lemma RunCovers(w: seq<CodePoint>, t: seq<CodePoint>, j: nat, p: nat, s: nat, r: nat)
    requires j < |w| && p <= |t| && Seek(w, t, j, p) == s && LetterRun(w, t, j, s, r)
    ensures Advance(w, t, j, p).Some? && s + r <= Advance(w, t, j, p).value
  {
    hide SkipRun, SkipSeparators;
    assert t[s] == w[j];
  }

  lemma NextStart(w: seq<CodePoint>, t: seq<CodePoint>, j: nat, p: nat, s: nat, r: nat, next: nat)
    requires Clean(w) && j + 1 < |w| && p <= |t| && Seek(w, t, j, p) == s && LetterRun(w, t, j, s, r)
    requires Gap(w, t, s + r, next) && next < |t| && t[next] == w[j + 1]
    ensures Advance(w, t, j, p).Some? && Seek(w, t, j + 1, Advance(w, t, j, p).value) == next
  {
    SeekFinds(w, t, j, s, r, next);
    hide SkipRun, SkipSeparators, Gap, Clean;
    assert t[s] == w[j];
  }

  /** Every spelling starts each of its letters exactly where the scan does. */
  lemma {:induction false} StartsAgree(w: seq<CodePoint>, t: seq<CodePoint>, at: nat, starts: seq<nat>,
                                       runs: seq<nat>, j: nat)
    requires Clean(w) && at <= |t| && Partial(w, t, at, starts, runs) && j < |starts|
    ensures Greedy(w, t, at, j).Some? && Seek(w, t, j, Greedy(w, t, at, j).value) == starts[j]
  {
    hide Advance, Gap, Clean;
    assert LetterRun(w, t, j, starts[j], runs[j]);
    if j > 0 {
      StartsAgree(w, t, at, starts, runs, j - 1);
      NextStart(w, t, j - 1, Greedy(w, t, at, j - 1).value, starts[j - 1], runs[j - 1], starts[j]);
    }
  }

  /** The scan returns the longest spelling there is, and fails exactly when there is none. */
  lemma MatchIsLongest(w: seq<CodePoint>, t: seq<CodePoint>, at: nat)
    requires Clean(w) && w != [] && at <= |t|
    ensures Greedy(w, t, at, |w|).Some? <==> exists e: nat :: Spelled(w, t, at, e)
    ensures Greedy(w, t, at, |w|).Some? ==>
              Spelled(w, t, at, Greedy(w, t, at, |w|).value)
              && forall e: nat :: Spelled(w, t, at, e) ==> e <= Greedy(w, t, at, |w|).value
  {
    if Greedy(w, t, at, |w|).Some? { GreedySpells(w, t, at); }
    forall e: nat | Spelled(w, t, at, e)
      ensures Greedy(w, t, at, |w|).Some? && e <= Greedy(w, t, at, |w|).value
    {
      var starts, runs :| Spelling(w, t, at, e, starts, runs);
      var j := |w| - 1;
      StartsAgree(w, t, at, starts, runs, j);
      RunCovers(w, t, j, Greedy(w, t, at, j).value, starts[j], runs[j]);
    }
  }

  /** A word with a separator past its first letter is never found, not even in itself. */
  lemma UncleanNeverMatches(w: seq<CodePoint>, t: seq<CodePoint>, at: nat, i: nat)
    requires 1 <= i < |w| && |w| >= 4 && IsSeparator(w[i]) && at <= |t|
    ensures Greedy(w, t, at, |w|).None?
  {
    if Greedy(w, t, at, i).Some? {
      assert Greedy(w, t, at, i + 1) == Advance(w, t, i, Greedy(w, t, at, i).value);
      NoneStays(w, t, at, i + 1);
    } else {
      NoneStays(w, t, at, i);
    }
  }

  lemma SpellsItself(w: seq<CodePoint>)
    requires w != []
    ensures Spelled(w, w, 0, |w|)
  {
    var starts, runs := seq(|w|, i => i), seq(|w|, _ => 1);
    assert Spelling(w, w, 0, |w|, starts, runs);
  }

  /** The scan of w is complete when it fails only where there is no spelling. */
  ghost predicate Complete(w: seq<CodePoint>)
    requires w != []
  {
    forall t: seq<CodePoint>, at: nat, e: nat :: at <= |t| && Spelled(w, t, at, e) ==> Greedy(w, t, at, |w|).Some?
  }

  /** Exactly the words without a separator past the first letter are matched completely. */
  lemma CompleteIff(w: seq<CodePoint>)
    requires w != []
    ensures Complete(w) <==> Clean(w)
  {
    if Clean(w) {
      forall t: seq<CodePoint>, at: nat, e: nat | at <= |t| && Spelled(w, t, at, e)
        ensures Greedy(w, t, at, |w|).Some?
      {
        MatchIsLongest(w, t, at);
      }
    } else {
      var i :| 1 <= i < |w| && IsSeparator(w[i]);
      UncleanNeverMatches(w, w, 0, i);
      SpellsItself(w);
    }
  }

  /** "it's" spells itself and is never matched. */
  lemma ApostropheExample()
    ensures var w := [105, 116, 39, 115]; Spelled(w, w, 0, 4) && Greedy(w, w, 0, 4).None?
  {
    var w := [105, 116, 39, 115];
    SpellsItself(w);
    UncleanNeverMatches(w, w, 0, 2);
  }
}
