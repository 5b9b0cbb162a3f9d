/** When a late authoritative row replaces a published one: promote it silently or rewind. */
module InputContract {
  import opened Common

  type int8 = x: int | -128 <= x < 128

  datatype Frame = Frame(tick: u32, buttons: nat, x: int8, y: int8, predicted: bool)

  datatype Params = Params(
    confirmedDeadband: u32, predictDeadband: u32, microDeadband: u32, continuityDeadband: u32,
    analogMinMag: u32, sameIntentMinActive: u32, sameIntentTolerance: u32,
    onsetFacingThresh: u32, onsetLargeDelta: u32, dashGateMin: int32, digitalAxisMag: int8)

  const DEFAULTS := Params(12, 14, 3, 12, 12, 8, 14, 4, 40, 56, 85)

  /** The answers of the host's callbacks; an absent one never fires. */
  datatype Gates = Gates(
    equalForceRewind: bool, absorb: bool, protect: (int, int, u32, bool) -> bool,
    block: bool, hashConfirm: bool, defer: bool)

  const NO_GATES := Gates(false, false, (_, _, _, _) => false, false, false, false)

  datatype Class = Button | Release | OnsetFromZero | MicroStick | SameIntentContinuity | RealStick

  datatype Decision =
    | Rewind
    | RewindEqualDeferred
    | PromoteEqual
    | PromoteAbsorb
    | PromoteProtect
    | PromoteMicro
    | PromoteContinuity
    | PromoteHashConfirm
    | PromoteDefer
    | PromoteInsignificant

  // ---- arithmetic ---------------------------------------------------------

  /** The cast of an unsigned parameter to int32_t. */
  function Signed(x: u32): int { if x < 0x8000_0000 then x else x - 0x1_0000_0000 }

  function Narrow(x: int): int8
    requires -128 <= x <= 128
  {
    if x == 128 then -128 else x
  }

  function AbsDiff(a: int8, b: int8): nat { if a < b then b - a else a - b }
  function Mag(a: int8): nat { AbsDiff(a, 0) }
  function Sign(a: int8): int { if a > 0 then 1 else if a < 0 then -1 else 0 }

  // ---- predicates on sticks -----------------------------------------------

  predicate IsDigital(axis: int8, p: Params)
  {
    p.digitalAxisMag != 0 && (axis == p.digitalAxisMag || axis == Narrow(-(p.digitalAxisMag as int)))
  }

  predicate NearNeutral(f: Frame, deadband: u32)
  {
    Mag(f.x) <= Signed(deadband) && Mag(f.y) <= Signed(deadband)
  }

  predicate LooksAnalog(x: int8, y: int8, p: Params)
  {
    && !(Mag(x) <= Signed(p.analogMinMag) && Mag(y) <= Signed(p.analogMinMag))
    && !IsDigital(x, p) && !IsDigital(y, p)
  }

  predicate AxisAgrees(a: int8, b: int8, p: Params)
  {
    var m := Signed(p.sameIntentMinActive);
    !(Mag(a) >= m && Mag(b) >= m && Sign(a) != Sign(b))
  }

  predicate SameIntent(prior: Frame, wire: Frame, p: Params)
  {
    && LooksAnalog(prior.x, prior.y, p) && LooksAnalog(wire.x, wire.y, p)
    && AxisAgrees(prior.x, wire.x, p) && AxisAgrees(prior.y, wire.y, p)
  }

  predicate Dashes(x: int8, p: Params) { Mag(x) >= p.dashGateMin }

  predicate DashDisagrees(hold: int8, wire: int8, p: Params)
  {
    && p.dashGateMin > 0
    && (Dashes(hold, p) != Dashes(wire, p)
        || (Dashes(hold, p) && Sign(hold) != 0 && Sign(wire) != 0 && Sign(hold) != Sign(wire)))
  }

  function Magnitude(f: Frame): nat { if Mag(f.y) > Mag(f.x) then Mag(f.y) else Mag(f.x) }

  predicate IsRelease(prior: Frame, wire: Frame, p: Params)
  {
    && !NearNeutral(prior, p.confirmedDeadband)
    && (NearNeutral(wire, p.confirmedDeadband)
        || Magnitude(wire) + Signed(p.confirmedDeadband) < Magnitude(prior))
  }

  predicate FalseDigital(published: Frame, remote: Frame, p: Params)
  {
    || (IsDigital(published.y, p) && !IsDigital(remote.y, p)
        && Mag(published.x) <= 14 && Mag(remote.x) <= 14 && Mag(remote.y) <= 25)
    || (IsDigital(published.x, p) && !IsDigital(remote.x, p)
        && Mag(published.y) <= 14 && Mag(remote.y) <= 14 && Mag(remote.x) <= 25)
  }

  /** rnet_input_contract_correction_is_significant(). */
  predicate Significant(o: Frame, n: Frame, predicted: bool, p: Params)
  {
    var deadband := if predicted then p.predictDeadband else p.confirmedDeadband;
    var facing := Signed(p.onsetFacingThresh);
    var dx, dy := AbsDiff(o.x, n.x), AbsDiff(o.y, n.y);
    if o.buttons != n.buttons then true
    else if predicted && FalseDigital(o, n, p) then false
    else if NearNeutral(o, deadband) && (!NearNeutral(n, deadband) || Mag(n.x) > 25 || Mag(n.y) > 25) then true
    else if Mag(o.x) > facing && Mag(n.x) > facing && Sign(o.x) != Sign(n.x) then true
    else if dx > Signed(p.onsetLargeDelta) || dy > Signed(p.onsetLargeDelta) then true
    else if deadband == 0 then o.x != n.x || o.y != n.y
    else if dx > Signed(deadband) || dy > Signed(deadband) then true
    else if predicted && !NearNeutral(o, deadband) && !NearNeutral(n, deadband) && SameIntent(o, n, p)
            && dx <= Signed(p.sameIntentTolerance) && dy <= Signed(p.sameIntentTolerance) then false
    else false
  }

  // ---- classification and decision ----------------------------------------

  /** Both deltas within a deadband. */
  predicate Within(o: Frame, n: Frame, deadband: u32)
  {
    AbsDiff(o.x, n.x) <= Signed(deadband) && AbsDiff(o.y, n.y) <= Signed(deadband)
  }

  function Classify(o: Frame, wire: Frame, p: Params): Class
  {
    if o.buttons != wire.buttons then Button
    else if IsRelease(o, wire, p) then Release
    else if NearNeutral(o, p.predictDeadband) && !NearNeutral(wire, p.predictDeadband) then OnsetFromZero
    else if SameIntent(o, wire, p) && p.microDeadband > 0 && Within(o, wire, p.microDeadband) then MicroStick
    else if SameIntent(o, wire, p) && p.continuityDeadband > p.microDeadband && Within(o, wire, p.continuityDeadband)
      then SameIntentContinuity
    else RealStick
  }

  predicate GameplayEquals(a: Frame, b: Frame)
  {
    a.tick == b.tick && a.buttons == b.buttons && a.x == b.x && a.y == b.y
  }

  /** The completed-sim half of the decision, once equal and absorbed rows are out of the way. */
  function DecideCompleted(o: Frame, wire: Frame, p: Params, g: Gates): Decision
  {
    if o.buttons != wire.buttons || IsRelease(o, wire, p) then Rewind
    else if SameIntent(o, wire, p) && !DashDisagrees(o.x, wire.x, p) then
      if g.protect(AbsDiff(o.x, wire.x), AbsDiff(o.y, wire.y), p.microDeadband, o.predicted) then PromoteProtect
      else if g.block then Rewind
      else if !o.predicted then
        if p.microDeadband > 0 && Within(o, wire, p.microDeadband) then PromoteMicro
        else if p.continuityDeadband > p.microDeadband && Within(o, wire, p.continuityDeadband) then PromoteContinuity
        else Rewind
      else if Within(o, wire, p.continuityDeadband) && g.hashConfirm then PromoteHashConfirm
      else Rewind
    else Rewind
  }

  /** rnet_input_contract_stick_replace_decide(). */
  function Decide(o: Frame, wire: Frame, completed: bool, p: Params, g: Gates): Decision
  {
    if GameplayEquals(o, wire) then
      if o.predicted && g.equalForceRewind then RewindEqualDeferred else PromoteEqual
    else if o.buttons == wire.buttons && g.absorb then PromoteAbsorb
    else if completed then DecideCompleted(o, wire, p, g)
    else if IsRelease(o, wire, p) then Rewind
    else if g.defer then PromoteDefer
    else if Significant(o, wire, false, p) then Rewind
    else PromoteInsignificant
  }

  // ---- agreement of the two tables ----------------------------------------

  /** What the classification says a completed confirmed row should get. */
  function Expected(o: Frame, wire: Frame, p: Params): Decision
  {
    if DashDisagrees(o.x, wire.x, p) then Rewind
    else match Classify(o, wire, p)
      case MicroStick => PromoteMicro
      case SameIntentContinuity => PromoteContinuity
      case _ => Rewind
  }

  /** The two tables agree on a pair of rows. */
  predicate Agree(o: Frame, wire: Frame, p: Params)
  {
    Decide(o, wire, true, p, NO_GATES) == Expected(o, wire, p)
  }

  /** The guard of the onset branch, which only the classification has. */
  predicate Onset(o: Frame, wire: Frame, p: Params)
  {
    NearNeutral(o, p.predictDeadband) && !NearNeutral(wire, p.predictDeadband)
  }

  /** Row by row: the tables differ exactly on an onset the decision promotes. */
  lemma AgreeIff(o: Frame, wire: Frame, p: Params)
    requires !GameplayEquals(o, wire) && !o.predicted
    ensures Agree(o, wire, p) <==> !(Onset(o, wire, p) && Decide(o, wire, true, p, NO_GATES) != Rewind)
  {
    hide NearNeutral, IsRelease, SameIntent, DashDisagrees, Within;
  }

  /** Without gates a completed predicted row that differs always rewinds. */
  lemma PredictedRewinds(o: Frame, wire: Frame, p: Params)
    requires !GameplayEquals(o, wire) && o.predicted
    ensures Decide(o, wire, true, p, NO_GATES) == Rewind
  {
    hide NearNeutral, IsRelease, SameIntent, DashDisagrees, Within;
  }

  function DigitalMag(p: Params): nat { Mag(p.digitalAxisMag) }

  /** The magnitude of a digital axis. */
  predicate DigitalAt(m: int, p: Params)
  {
    DigitalMag(p) != 0 && m == DigitalMag(p)
  }

  /** The largest delta that is promoted; the two deadbands are compared unsigned and used signed. */
  function Window(p: Params): int
  {
    if p.continuityDeadband > p.microDeadband && Signed(p.continuityDeadband) > Signed(p.microDeadband)
    then Signed(p.continuityDeadband) else Signed(p.microDeadband)
  }

  /** A deflection from `v` to `w` that is an onset, of one intent, no release, and inside the promote window. */
  predicate Crossing(p: Params, v: int, w: int)
  {
    && 0 <= v && Signed(p.analogMinMag) < v <= Signed(p.predictDeadband) < w <= 128
    && !DigitalAt(v, p) && !DigitalAt(w, p)
    && (v == 0 ==> Signed(p.sameIntentMinActive) > 0)
    && -Signed(p.confirmedDeadband) <= w - v <= Window(p)
  }

  /** The onset deadband overlaps the promote window. */
  predicate Overlaps(p: Params)
  {
    exists v, w | 0 <= v <= 128 && 0 <= w <= 128 :: Crossing(p, v, w)
  }

  lemma DigitalIff(axis: int8, p: Params)
    ensures IsDigital(axis, p) <==> DigitalAt(Mag(axis), p)
  {
  }

  /** A confirmed row that is promoted has one intent, is no release, and moved no more than the window. */
  lemma PromotedIsWithin(o: Frame, wire: Frame, p: Params)
    requires !GameplayEquals(o, wire) && !o.predicted
    requires Decide(o, wire, true, p, NO_GATES) != Rewind
    ensures SameIntent(o, wire, p) && !IsRelease(o, wire, p)
    ensures AbsDiff(o.x, wire.x) <= Window(p) && AbsDiff(o.y, wire.y) <= Window(p)
  {
    hide IsRelease, SameIntent, DashDisagrees;
  }

  /** A promoted onset crosses the onset branch's deadband inside the window. */
  lemma OnsetCrosses(o: Frame, wire: Frame, p: Params)
    requires Onset(o, wire, p) && SameIntent(o, wire, p) && !IsRelease(o, wire, p)
    requires AbsDiff(o.x, wire.x) <= Window(p) && AbsDiff(o.y, wire.y) <= Window(p)
    ensures Crossing(p, Magnitude(o), Magnitude(wire))
  {
    hide IsDigital, DigitalAt, Window;
    DigitalIff(o.x, p);
    DigitalIff(o.y, p);
    DigitalIff(wire.x, p);
    DigitalIff(wire.y, p);
  }

  lemma NoOverlapAgrees(o: Frame, wire: Frame, p: Params)
    requires !Overlaps(p) && !GameplayEquals(o, wire) && !o.predicted
    ensures Agree(o, wire, p)
  {
    hide NearNeutral, IsRelease, SameIntent, DashDisagrees, Within, Agree, Decide, Crossing, Onset;
    AgreeIff(o, wire, p);
    if Onset(o, wire, p) && Decide(o, wire, true, p, NO_GATES) != Rewind {
      PromotedIsWithin(o, wire, p);
      OnsetCrosses(o, wire, p);
    }
  }

  /** A stick pushed up from one magnitude to another. */
  function Pushed(m: int): Frame
    requires 0 <= m <= 128
  {
    Frame(0, 0, 0, -m, false)
  }

  lemma CrossingSameIntent(p: Params, v: int, w: int)
    requires Crossing(p, v, w)
    ensures SameIntent(Pushed(v), Pushed(w), p)
  {
    hide IsDigital;
    DigitalIff(0, p);
    DigitalIff(-v, p);
    DigitalIff(-w, p);
  }

  /** Where the parameters overlap, a stick pushed up past the deadband tells the tables apart. */
  lemma OverlapDisagrees(p: Params, v: int, w: int)
    requires Crossing(p, v, w)
    ensures !GameplayEquals(Pushed(v), Pushed(w)) && !Agree(Pushed(v), Pushed(w), p)
  {
    CrossingSameIntent(p, v, w);
    hide SameIntent;
    var o, wire := Pushed(v), Pushed(w);
    assert Onset(o, wire, p);
    assert !IsRelease(o, wire, p);
    assert !DashDisagrees(o.x, wire.x, p);
    assert w - v > 0;
  }

  /** The tables agree on every confirmed row. */
  ghost predicate AlwaysAgree(p: Params)
  {
    forall o: Frame, wire: Frame :: !GameplayEquals(o, wire) && !o.predicted ==> Agree(o, wire, p)
  }

  /** For every choice of parameters, those included that the casts turn negative: the tables agree on all rows
      exactly when the onset deadband does not overlap the promote window. */
  lemma AgreementIff(p: Params)
    ensures AlwaysAgree(p) <==> !Overlaps(p)
  {
    hide Agree, Crossing;
    if Overlaps(p) {
      var v, w :| 0 <= v <= 128 && 0 <= w <= 128 && Crossing(p, v, w);
      OverlapDisagrees(p, v, w);
    } else {
      forall o: Frame, wire: Frame | !GameplayEquals(o, wire) && !o.predicted ensures Agree(o, wire, p) {
        NoOverlapAgrees(o, wire, p);
      }
    }
  }

  /** The largest magnitude the onset branch calls neutral that is not the digital one. */
  function Below(p: Params): int
  {
    if DigitalAt(p.predictDeadband, p) then p.predictDeadband - 1 else p.predictDeadband
  }

  /** The smallest magnitude past it that is not the digital one. */
  function Above(p: Params): int
  {
    if DigitalAt(p.predictDeadband + 1, p) then p.predictDeadband + 2 else p.predictDeadband + 1
  }

  /** Where no cast turns negative, the overlap is one comparison around the onset deadband. */
  lemma OverlapsIff(p: Params)
    requires Signed(p.confirmedDeadband) >= 0 && Signed(p.predictDeadband) >= 0 && Signed(p.analogMinMag) >= 0
    ensures Overlaps(p) <==> p.analogMinMag < Below(p) && Above(p) <= 128 && Above(p) - Below(p) <= Window(p)
  {
    hide Window;
    if p.analogMinMag < Below(p) && Above(p) <= 128 && Above(p) - Below(p) <= Window(p) {
      assert Crossing(p, Below(p), Above(p));
    }
    if Overlaps(p) {
      var v, w :| 0 <= v <= 128 && 0 <= w <= 128 && Crossing(p, v, w);
      assert v <= Below(p) && Above(p) <= w;
    }
  }

  /** A predict deadband no larger than the analog floor rules the overlap out; the defaults have it larger. */
  lemma DeadbandOrderSuffices(p: Params)
    requires Signed(p.predictDeadband) <= Signed(p.analogMinMag)
    ensures AlwaysAgree(p)
  {
    AgreementIff(p);
  }

  /** With the default parameters a push from 13 to 15 is classified an onset and promoted nevertheless. */
  lemma DefaultsDisagree()
    ensures var o, wire := Frame(0, 0, 13, 0, false), Frame(0, 0, 15, 0, false);
      Classify(o, wire, DEFAULTS) == OnsetFromZero && Decide(o, wire, true, DEFAULTS, NO_GATES) == PromoteMicro
    ensures !AlwaysAgree(DEFAULTS)
  {
    assert Crossing(DEFAULTS, 13, 15);
    AgreementIff(DEFAULTS);
  }

  // ---- what no gate can change --------------------------------------------

  predicate IsRewind(d: Decision) { d.Rewind? || d.RewindEqualDeferred? }

  /** Whatever the host answers: what a decision on a row that differs tells about the row. */
  lemma PromotesAreGuarded(o: Frame, wire: Frame, completed: bool, p: Params, g: Gates)
    requires !GameplayEquals(o, wire)
    ensures var d := Decide(o, wire, completed, p, g);
      && (o.buttons != wire.buttons && completed ==> d == Rewind)
      && (IsRelease(o, wire, p) ==> d == if o.buttons == wire.buttons && g.absorb then PromoteAbsorb else Rewind)
      && (completed && !IsRewind(d) && d != PromoteAbsorb ==>
            SameIntent(o, wire, p) && !DashDisagrees(o.x, wire.x, p))
      && (o.predicted ==> d != PromoteMicro && d != PromoteContinuity)
      && (d == PromoteHashConfirm ==> o.predicted && g.hashConfirm && !g.block)
      && (d == PromoteDefer ==> !completed && g.defer)
  {
    hide NearNeutral, IsRelease, SameIntent, DashDisagrees, Within, Significant;
  }

  /** The same-intent tolerance and the same-intent rules never decide significance. */
  lemma ToleranceIsIdle(o: Frame, n: Frame, predicted: bool, p: Params, tolerance: u32, minActive: u32, floor: u32)
    ensures Significant(o, n, predicted, p) ==
            Significant(o, n, predicted,
                        p.(sameIntentTolerance := tolerance, sameIntentMinActive := minActive, analogMinMag := floor))
  {
    hide NearNeutral;
  }
}
