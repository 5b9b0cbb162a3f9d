/** The per-seat ring of input rows, against the log of everything ever stored in it. */
module InputHist {
  import opened Common

  const DEPTH := 128
  const MAX_SLOTS := 8

  /** The whole presented pad. */
  datatype Pad = Pad(buttons: nat, stickX: int, stickY: int, analog: byte, rx: byte, ry: byte)

  datatype Frame = Frame(tick: u32, pad: Pad, predicted: bool, valid: bool)

  const EMPTY := Frame(0, Pad(0, 0, 0, 0, 0, 0), false, false)
  const NEUTRAL := Pad(0xFFFF, 0, 0, 0, 0, 0)

  /** Everything stored for one seat, oldest first. */
  type Log = seq<Frame>

  ghost predicate Stored(log: Log)
  {
    forall k :: 0 <= k < |log| ==> log[k].valid
  }

  // ---- the ring as a function of the log ----------------------------------

  /** What ring position r holds. */
  ghost function Cell(log: Log, r: nat): Frame
  {
    if log == [] then EMPTY
    else if log[|log| - 1].tick % DEPTH == r then log[|log| - 1]
    else Cell(log[..|log| - 1], r)
  }

  /** What a lookup of tick t gives. */
  ghost function Found(log: Log, t: u32): Option<Frame>
  {
    var c := Cell(log, t % DEPTH);
    if c.valid && c.tick == t then Some(c) else None
  }

  /** Store k is the last one of its tick, and nothing later took its ring position for another tick. */
  ghost predicate Survives(log: Log, k: nat)
  {
    k < |log| && forall j :: k < j < |log| ==> log[j].tick % DEPTH != log[k].tick % DEPTH
  }

  lemma {:induction false} CellIsLatest(log: Log, r: nat)
    returns (k: int)
    ensures -1 <= k < |log| && forall j :: k < j < |log| ==> log[j].tick % DEPTH != r
    ensures if k == -1 then Cell(log, r) == EMPTY else log[k].tick % DEPTH == r && Cell(log, r) == log[k]
  {
    if log == [] {
      k := -1;
    } else if log[|log| - 1].tick % DEPTH == r {
      k := |log| - 1;
    } else {
      k := CellIsLatest(log[..|log| - 1], r);
    }
  }

  /** A lookup gives exactly the store of that tick that no later congruent store displaced. */
  lemma FoundIff(log: Log, t: u32, f: Frame)
    requires Stored(log)
    ensures Found(log, t) == Some(f) <==> exists k: nat :: Survives(log, k) && log[k] == f && f.tick == t
  {
    hide Cell;
    var k := CellIsLatest(log, t % DEPTH);
    if k >= 0 { assert Survives(log, k); }
    forall i: nat | Survives(log, i) && log[i].tick == t ensures i == k {}
  }

  /** After the last store of t, the lookup misses exactly when another congruent tick was stored since. */
  lemma MissIff(log: Log, t: u32, k: nat)
    requires Stored(log) && k < |log| && log[k].tick == t
    requires forall j :: k < j < |log| ==> log[j].tick != t
    ensures Found(log, t) == None <==> exists j :: k < j < |log| && log[j].tick % DEPTH == t % DEPTH
    ensures Found(log, t) == None || Found(log, t) == Some(log[k])
  {
    hide Cell;
    var c := CellIsLatest(log, t % DEPTH);
  }

  /** A new store is found at once. */
  lemma StoreFound(log: Log, f: Frame)
    requires f.valid
    ensures Found(log + [f], f.tick) == Some(f)
  {
    assert (log + [f])[|log|] == f;
  }

  /** ... and displaces only its own ring position. */
  lemma OthersStay(log: Log, f: Frame, r: nat)
    ensures Cell(log + [f], r) == if f.tick % DEPTH == r then f else Cell(log, r)
  {
    assert (log + [f])[..|log|] == log;
  }

  // ---- invention ----------------------------------------------------------

  /** The nearest earlier row within reach, looking back from the given distance. */
  ghost function Nearest(log: Log, t: u32, look: nat): (r: Option<Frame>)
    requires 1 <= look <= DEPTH
    decreases DEPTH - look
  {
    if look == DEPTH || t < look then None
    else if Found(log, t - look).Some? then Found(log, t - look)
    else Nearest(log, t, look + 1)
  }

  /** The row looked back to is the latest found tick before t and within 127 of it, if there is any. */
  lemma {:induction false} NearestIs(log: Log, t: u32, look: nat)
    requires 1 <= look <= DEPTH
    ensures match Nearest(log, t, look)
      case None => forall u: u32 :: look <= t - u < DEPTH ==> Found(log, u).None?
      case Some(f) =>
        && look <= t - f.tick < DEPTH && Found(log, f.tick) == Some(f)
        && forall u: u32 :: f.tick < u && look <= t - u ==> Found(log, u).None?
    decreases DEPTH - look
  {
    if look < DEPTH && t >= look && Found(log, t - look).None? { NearestIs(log, t, look + 1); }
  }

  datatype Invent = Hold | Idle

  /** The row an invention stores. */
  ghost function Invented(log: Log, neutral: Pad, how: Invent, t: u32): (f: Frame)
    ensures f.tick == t && f.predicted && f.valid
  {
    var prev := Nearest(log, t, 1);
    var pad := if prev.None? then neutral
               else if how.Hold? then prev.value.pad
               else neutral.(analog := prev.value.pad.analog);
    Frame(t, pad, true, true)
  }

  /** Nothing to look up in the 127 ticks before t: the neutral pad, whichever way it is invented. */
  lemma InventedBlank(log: Log, neutral: Pad, how: Invent, t: u32)
    requires forall u: u32 :: t - 127 <= u < t ==> Found(log, u).None?
    ensures Invented(log, neutral, how, t) == Frame(t, neutral, true, true)
  {
    hide Found;
    NearestIs(log, t, 1);
  }

  /** Otherwise the latest of them: a hold repeats its whole pad, an idle keeps its device type only. */
  lemma InventedFrom(log: Log, neutral: Pad, t: u32, f: Frame)
    requires t - 127 <= f.tick < t && Found(log, f.tick) == Some(f)
    requires forall u: u32 :: f.tick < u < t ==> Found(log, u).None?
    ensures Invented(log, neutral, Hold, t).pad == f.pad
    ensures Invented(log, neutral, Idle, t).pad
            == Pad(neutral.buttons, neutral.stickX, neutral.stickY, f.pad.analog, neutral.rx, neutral.ry)
  {
    hide Found;
    NearestIs(log, t, 1);
  }

  /** Inventions at consecutive ticks from t on. */
  ghost function InventRun(log: Log, neutral: Pad, hows: seq<Invent>, t: nat): Log
    requires t + |hows| <= U32_MAX + 1
    decreases |hows|
  {
    if hows == [] then log
    else InventRun(log + [Invented(log, neutral, hows[0], t)], neutral, hows[1..], t + 1)
  }

  /** What such a run makes of the pad it started from. */
  function Carried(pad: Pad, neutral: Pad, hows: seq<Invent>): (p: Pad)
    ensures p.analog == pad.analog
    ensures Idle !in hows ==> p == pad
    ensures Idle in hows ==> p == neutral.(analog := pad.analog)
    decreases |hows|
  {
    if hows == [] then pad
    else Carried(if hows[0].Hold? then pad else neutral.(analog := pad.analog), neutral, hows[1..])
  }

  /**
   * A run of inventions of any length carries the row it started from: holds repeat the whole pad, an idle
   * keeps the device type. The starting row may be long gone from the ring by then.
   */
  lemma {:induction false} RunCarries(log: Log, neutral: Pad, hows: seq<Invent>, base: Frame)
    requires Found(log, base.tick) == Some(base) && base.tick + 1 + |hows| <= U32_MAX + 1
    ensures var last := Found(InventRun(log, neutral, hows, base.tick + 1), base.tick + |hows|);
      last.Some? && last.value.pad == Carried(base.pad, neutral, hows)
    decreases |hows|
  {
    hide Found;
    if hows != [] {
      var f := Invented(log, neutral, hows[0], base.tick + 1);
      assert Nearest(log, base.tick + 1, 1) == Some(base);
      StoreFound(log, f);
      RunCarries(log + [f], neutral, hows[1..], f);
    }
  }

  lemma {:induction false} RunAppends(log: Log, neutral: Pad, hows: seq<Invent>, t: nat)
    requires t + |hows| <= U32_MAX + 1
    ensures log <= InventRun(log, neutral, hows, t)
    ensures |InventRun(log, neutral, hows, t)| == |log| + |hows|
    ensures forall j :: |log| <= j < |log| + |hows| ==> InventRun(log, neutral, hows, t)[j].tick == t + (j - |log|)
    decreases |hows|
  {
    if hows != [] {
      var next := log + [Invented(log, neutral, hows[0], t)];
      RunAppends(next, neutral, hows[1..], t + 1);
      assert InventRun(log, neutral, hows, t)[|log|] == next[|log|];
    }
  }

  /** After 128 inventions the row they all repeat can no longer be looked up. */
  lemma BaseEvicted(log: Log, neutral: Pad, hows: seq<Invent>, base: Frame)
    requires Stored(log) && Found(log, base.tick) == Some(base) && base.tick + 1 + |hows| <= U32_MAX + 1
    requires |hows| >= DEPTH
    ensures Found(InventRun(log, neutral, hows, base.tick + 1), base.tick) == None
  {
    hide Cell, InventRun;
    var all := InventRun(log, neutral, hows, base.tick + 1);
    RunAppends(log, neutral, hows, base.tick + 1);
    var k := CellIsLatest(all, base.tick % DEPTH);
    var j := |log| + DEPTH - 1;
    assert all[j].tick == base.tick + DEPTH;
    assert k >= j;
    assert all[k].tick > base.tick;
  }

  // ---- the object ---------------------------------------------------------

  /** RNetInputHist. logs remembers, seat by seat, every row put since the reset. */
  class History {
    const rows: array2<Frame>
    const neutral: array<Pad>
    var slotCount: int
    var inventCount: u32
    var promoteCount: u32
    ghost var logs: seq<Log>

    ghost predicate Valid()
      reads this, rows, neutral
    {
      && rows.Length0 == MAX_SLOTS && rows.Length1 == DEPTH && neutral.Length == MAX_SLOTS
      && 1 <= slotCount <= MAX_SLOTS && |logs| == MAX_SLOTS
      && (forall s :: 0 <= s < MAX_SLOTS ==> Stored(logs[s]))
      && forall s, r :: 0 <= s < MAX_SLOTS && 0 <= r < DEPTH ==> rows[s, r] == Cell(logs[s], r)
    }

    predicate Serves(slot: int)
      reads this
    {
      0 <= slot < slotCount
    }

    /** rnet_ih_reset() on a fresh object. */
    constructor (count: int)
      ensures Valid() && fresh(rows) && fresh(neutral)
      ensures slotCount == if count < 1 then 1 else if count > MAX_SLOTS then MAX_SLOTS else count
      ensures forall s :: 0 <= s < MAX_SLOTS ==> logs[s] == [] && neutral[s] == NEUTRAL
      ensures inventCount == 0 && promoteCount == 0
    {
      rows := new Frame[MAX_SLOTS, DEPTH]((_, _) => EMPTY);
      neutral := new Pad[MAX_SLOTS](_ => NEUTRAL);
      slotCount := if count < 1 then 1 else if count > MAX_SLOTS then MAX_SLOTS else count;
      inventCount, promoteCount := 0, 0;
      logs := seq(MAX_SLOTS, _ => []);
    }

    method SetNeutral(slot: int, pad: Pad) returns (ok: bool)
      requires Valid()
      modifies neutral
      ensures Valid() && ok == (0 <= slot < MAX_SLOTS)
      ensures forall s :: 0 <= s < MAX_SLOTS ==> neutral[s] == if s == slot then pad else old(neutral[s])
    {
      ok := 0 <= slot < MAX_SLOTS;
      if ok { neutral[slot] := pad; }
    }

    method Put(slot: int, frame: Frame) returns (ok: bool)
      requires Valid()
      modifies this`logs, rows
      ensures Valid() && ok == (frame.valid && Serves(slot))
      ensures logs == if ok then old(logs)[slot := old(logs)[slot] + [frame]] else old(logs)
    {
      hide Cell;
      ok := frame.valid && 0 <= slot < slotCount;
      if ok {
        rows[slot, frame.tick % DEPTH] := frame;
        ghost var log := logs[slot];
        logs := logs[slot := log + [frame]];
        forall r | 0 <= r < DEPTH ensures rows[slot, r] == Cell(log + [frame], r) { OthersStay(log, frame, r); }
      }
    }

    method Get(slot: int, tick: u32) returns (r: Option<Frame>)
      requires Valid()
      ensures r == if Serves(slot) then Found(logs[slot], tick) else None
    {
      if !(0 <= slot < slotCount) { return None; }
      var src := rows[slot, tick % DEPTH];
      if !src.valid || src.tick != tick { return None; }
      return Some(src);
    }

    /** The backward search both inventions share. */
    method LookBack(slot: int, tick: u32) returns (prev: Option<Frame>)
      requires Valid() && Serves(slot)
      ensures prev == Nearest(logs[slot], tick, 1)
    {
      hide Found;
      var look := 1;
      prev := None;
      while look < DEPTH && look <= tick && prev.None?
        invariant 1 <= look <= DEPTH
        invariant Nearest(logs[slot], tick, 1) == if prev.Some? then prev else Nearest(logs[slot], tick, look)
        decreases DEPTH - look, prev.None?
      {
        prev := Get(slot, tick - look);
        if prev.None? { look := look + 1; }
      }
    }

    method StoreInvented(slot: int, invented: Frame)
      requires Valid() && Serves(slot) && invented.valid
      modifies this`logs, this`inventCount, rows
      ensures Valid() && logs == old(logs)[slot := old(logs)[slot] + [invented]]
      ensures inventCount == (old(inventCount) + 1) % 0x1_0000_0000
    {
      var ok := Put(slot, invented);
      inventCount := (inventCount + 1) % 0x1_0000_0000;
    }

    method InventHoldLast(slot: int, tick: u32) returns (out: Option<Frame>)
      requires Valid()
      modifies this`logs, this`inventCount, rows
      ensures Valid() && out.Some? == Serves(slot)
      ensures Serves(slot) ==>
                out == Some(Invented(old(logs)[slot], neutral[slot], Hold, tick))
                && logs == old(logs)[slot := old(logs)[slot] + [out.value]]
                && inventCount == (old(inventCount) + 1) % 0x1_0000_0000
      ensures !Serves(slot) ==> logs == old(logs) && inventCount == old(inventCount)
    {
      if !(0 <= slot < slotCount) { return None; }
      var invented := Frame(tick, neutral[slot], true, true);
      var prev := LookBack(slot, tick);
      if prev.Some? { invented := invented.(pad := prev.value.pad); }
      StoreInvented(slot, invented);
      out := Some(invented);
    }

    method InventIdle(slot: int, tick: u32) returns (out: Option<Frame>)
      requires Valid()
      modifies this`logs, this`inventCount, rows
      ensures Valid() && out.Some? == Serves(slot)
      ensures Serves(slot) ==>
                out == Some(Invented(old(logs)[slot], neutral[slot], Idle, tick))
                && logs == old(logs)[slot := old(logs)[slot] + [out.value]]
                && inventCount == (old(inventCount) + 1) % 0x1_0000_0000
      ensures !Serves(slot) ==> logs == old(logs) && inventCount == old(inventCount)
    {
      if !(0 <= slot < slotCount) { return None; }
      var pad := neutral[slot];
      var prev := LookBack(slot, tick);
      if prev.Some? { pad := pad.(analog := prev.value.pad.analog); }
      var invented := Frame(tick, pad, true, true);
      StoreInvented(slot, invented);
      out := Some(invented);
    }

    method Promote(slot: int, wire: Frame) returns (ok: bool)
      requires Valid()
      modifies this`logs, this`promoteCount, rows
      ensures Valid() && ok == (wire.valid && Serves(slot))
      ensures logs == if ok then old(logs)[slot := old(logs)[slot] + [wire.(predicted := false)]] else old(logs)
      ensures promoteCount == if ok then (old(promoteCount) + 1) % 0x1_0000_0000 else old(promoteCount)
      ensures ok ==> Found(logs[slot], wire.tick) == Some(wire.(predicted := false))
    {
      ok := wire.valid;
      if ok {
        var auth := wire.(predicted := false, valid := true);
        ok := Put(slot, auth);
        if ok {
          promoteCount := (promoteCount + 1) % 0x1_0000_0000;
          StoreFound(old(logs)[slot], auth);
        }
      }
    }

    /** A run of inventions for one seat, as the session makes them for a missing peer. */
    method InventAll(slot: int, from: nat, hows: seq<Invent>)
      requires Valid() && Serves(slot) && from + |hows| <= U32_MAX + 1
      modifies this`logs, this`inventCount, rows
      ensures Valid()
      ensures logs == old(logs)[slot := InventRun(old(logs)[slot], neutral[slot], hows, from)]
    {
      hide Invented, Stored;
      var i := 0;
      ghost var all := InventRun(logs[slot], neutral[slot], hows, from);
      ghost var was := logs;
      assert hows[0..] == hows;
      while i < |hows|
        invariant 0 <= i <= |hows| && Valid() && slotCount == old(slotCount)
        invariant logs == was[slot := logs[slot]]
        invariant InventRun(logs[slot], neutral[slot], hows[i..], from + i) == all
      {
        assert hows[i..][0] == hows[i] && hows[i..][1..] == hows[i + 1..];
        if hows[i].Hold? {
          var _ := InventHoldLast(slot, from + i);
        } else {
          var _ := InventIdle(slot, from + i);
        }
        i := i + 1;
      }
    }
  }
}
