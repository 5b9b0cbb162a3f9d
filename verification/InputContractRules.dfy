/** The replacement rules told on the two frames themselves, by squares around the stick's centre. */
module InputContractRules {
  import opened Common
  import opened InputContract

  // ---- the vocabulary: squares, turns, moves ------------------------------

  predicate Inside(v: int, d: int) { -d <= v <= d }

  /** The stick lies in the square of half-width `d`. */
  predicate Boxed(f: Frame, d: int) { Inside(f.x, d) && Inside(f.y, d) }

  /** Each axis moved by at most `d`. */
  predicate Close(o: Frame, n: Frame, d: int) { Inside(n.x - o.x, d) && Inside(n.y - o.y, d) }

  /** Two positions past `d` that do not lie on the same side. */
  predicate Turned(a: int, b: int, d: int)
  {
    !Inside(a, d) && !Inside(b, d) && !(a > 0 && b > 0) && !(a < 0 && b < 0) && a != b
  }

  /** An axis at the keyboard's deflection, one way or the other. */
  predicate Keyed(v: int, p: Params)
  {
    p.digitalAxisMag != 0 && (v == p.digitalAxisMag || v == -(p.digitalAxisMag as int))
  }

  /** A deflected stick that came home, or whose old place sticks out of a square drawn `d` wider than one that
      holds the new place. */
  predicate Shed(o: Frame, wire: Frame, d: int)
  {
    !Boxed(o, d) && (Boxed(wire, d) || exists m | 0 <= m <= 128 :: Boxed(wire, m) && !Boxed(o, m + d))
  }

  /** A stick held by hand: out of the middle and on no keyed deflection. */
  predicate ByHand(f: Frame, p: Params)
  {
    !Boxed(f, Signed(p.analogMinMag)) && !Keyed(f.x, p) && !Keyed(f.y, p)
  }

  /** Both by hand and no axis turned. */
  predicate OneIntent(o: Frame, wire: Frame, p: Params)
  {
    var m := Signed(p.sameIntentMinActive);
    && ByHand(o, p) && ByHand(wire, p)
    && !Turned(o.x, wire.x, m - 1) && !Turned(o.y, wire.y, m - 1)
  }

  /** A dash started, ended or turned. */
  predicate DashChanged(o: Frame, wire: Frame, p: Params)
  {
    var d := p.dashGateMin - 1;
    d >= 0 && (Inside(o.x, d) != Inside(wire.x, d) || Turned(o.x, wire.x, d))
  }

  /** A stick move no correction may swallow, for a deadband `d`. */
  predicate Moved(o: Frame, n: Frame, d: int, p: Params)
  {
    || (Boxed(o, d) && !(Boxed(n, d) && Boxed(n, 25)))
    || Turned(o.x, n.x, Signed(p.onsetFacingThresh))
    || !Close(o, n, Signed(p.onsetLargeDelta))
    || !Close(o, n, d)
  }

  // ---- the predicates of the source in these words -------------------------

  lemma ShedIff(o: Frame, wire: Frame, p: Params)
    ensures IsRelease(o, wire, p) <==> Shed(o, wire, Signed(p.confirmedDeadband))
  {
    var d := Signed(p.confirmedDeadband);
    hide Signed;
    if IsRelease(o, wire, p) && !NearNeutral(wire, p.confirmedDeadband) {
      assert Boxed(wire, Magnitude(wire)) && !Boxed(o, Magnitude(wire) + d);
    }
  }

  lemma TurnedIff(a: int8, b: int8, d: int)
    ensures Turned(a, b, d) <==> Mag(a) > d && Mag(b) > d && Sign(a) != Sign(b)
  {
  }

  lemma OneIntentIff(o: Frame, wire: Frame, p: Params)
    ensures SameIntent(o, wire, p) <==> OneIntent(o, wire, p)
  {
    var m := Signed(p.sameIntentMinActive);
    TurnedIff(o.x, wire.x, m - 1);
    TurnedIff(o.y, wire.y, m - 1);
    KeyedIff(o, p);
    KeyedIff(wire, p);
    hide Signed, Turned, IsDigital, Keyed, Sign;
  }

  lemma KeyedIff(f: Frame, p: Params)
    ensures (IsDigital(f.x, p) <==> Keyed(f.x, p)) && (IsDigital(f.y, p) <==> Keyed(f.y, p))
  {
  }

  lemma DashIff(o: Frame, wire: Frame, p: Params)
    ensures DashDisagrees(o.x, wire.x, p) <==> DashChanged(o, wire, p)
  {
    TurnedIff(o.x, wire.x, p.dashGateMin - 1);
    hide Turned;
  }

  lemma CloseIff(o: Frame, n: Frame, deadband: u32)
    ensures Within(o, n, deadband) <==> Close(o, n, Signed(deadband))
  {
    hide Signed;
  }

  // ---- significance --------------------------------------------------------

  /** A confirmed correction: what counts as a change. */
  lemma ConfirmedIff(o: Frame, n: Frame, p: Params)
    ensures Significant(o, n, false, p)
            <==> o.buttons != n.buttons || Moved(o, n, Signed(p.confirmedDeadband), p)
  {
    TurnedIff(o.x, n.x, Signed(p.onsetFacingThresh));
    hide Turned, Sign, SameIntent, FalseDigital;
  }

  /** A key that was guessed where the stick was only nudged. */
  predicate GuessedKey(a: int, b: int, a': int, b': int, p: Params)
  {
    Keyed(a, p) && !Keyed(a', p) && Inside(a', 25) && Inside(b, 14) && Inside(b', 14)
  }

  /** A predicted correction, by the wider deadband; a wrongly guessed key is no change. */
  lemma PredictedIff(o: Frame, n: Frame, p: Params)
    ensures Significant(o, n, true, p)
            <==> o.buttons != n.buttons
                 || (&& !GuessedKey(o.x, o.y, n.x, n.y, p) && !GuessedKey(o.y, o.x, n.y, n.x, p)
                     && Moved(o, n, Signed(p.predictDeadband), p))
  {
    TurnedIff(o.x, n.x, Signed(p.onsetFacingThresh));
    KeyedIff(o, p);
    KeyedIff(n, p);
    hide Turned, Sign, SameIntent, IsDigital, Keyed;
  }

  // ---- the decision --------------------------------------------------------

  /** The two rows differ in something the game reads. */
  predicate Differs(o: Frame, wire: Frame)
  {
    o.tick != wire.tick || o.buttons != wire.buttons || o.x != wire.x || o.y != wire.y
  }

  /** The host's absorb answer is heard only where the buttons agree. */
  predicate Absorbed(o: Frame, wire: Frame, g: Gates)
  {
    o.buttons == wire.buttons && g.absorb
  }

  /** Rows that agree, and rows the host absorbs. */
  lemma EarlyDecision(o: Frame, wire: Frame, completed: bool, p: Params, g: Gates)
    ensures var d := Decide(o, wire, completed, p, g);
      && (d == RewindEqualDeferred <==> !Differs(o, wire) && o.predicted && g.equalForceRewind)
      && (d == PromoteEqual <==> !Differs(o, wire) && !(o.predicted && g.equalForceRewind))
      && (d == PromoteAbsorb <==> Differs(o, wire) && Absorbed(o, wire, g))
  {
    hide IsRelease, Significant, SameIntent, DashDisagrees, Within;
  }

  /** Before the tick is simulated: a row that differs rewinds exactly on a release, or, where the host does not
      defer, on a button or a stick move past the thresholds. */
  lemma RunwayDecision(o: Frame, wire: Frame, p: Params, g: Gates)
    requires Differs(o, wire) && !Absorbed(o, wire, g)
    ensures var d, db := Decide(o, wire, false, p, g), Signed(p.confirmedDeadband);
      && (d == Rewind <==>
            Shed(o, wire, db) || (!g.defer && (o.buttons != wire.buttons || Moved(o, wire, db, p))))
      && (d == PromoteDefer <==> !Shed(o, wire, db) && g.defer)
      && (d == PromoteInsignificant <==>
            !Shed(o, wire, db) && !g.defer && o.buttons == wire.buttons && !Moved(o, wire, db, p))
  {
    ShedIff(o, wire, p);
    ConfirmedIff(o, wire, p);
    hide IsRelease, Shed, Significant, Moved;
  }

  /** A button that arrives late is never swallowed. */
  lemma LatePressRewinds(o: Frame, wire: Frame, p: Params)
    requires o.buttons != wire.buttons
    ensures Decide(o, wire, false, p, NO_GATES) == Decide(o, wire, true, p, NO_GATES) == Rewind
  {
    RunwayDecision(o, wire, p, NO_GATES);
    hide IsRelease, Significant, SameIntent, DashDisagrees, Within;
  }

  /** No button, no release, one intent and no change of dash: the rows a finished tick may take over. */
  predicate Steady(o: Frame, wire: Frame, p: Params)
  {
    && o.buttons == wire.buttons && !Shed(o, wire, Signed(p.confirmedDeadband))
    && OneIntent(o, wire, p) && !DashChanged(o, wire, p)
  }

  /** The host protects this move. */
  predicate Protected(o: Frame, wire: Frame, p: Params, g: Gates)
  {
    var dx, dy := wire.x - o.x, wire.y - o.y;
    g.protect(if dx < 0 then -dx else dx, if dy < 0 then -dy else dy, p.microDeadband, o.predicted)
  }

  predicate Micro(o: Frame, wire: Frame, p: Params)
  {
    p.microDeadband > 0 && Close(o, wire, Signed(p.microDeadband))
  }

  predicate Continues(o: Frame, wire: Frame, p: Params)
  {
    p.continuityDeadband > p.microDeadband && Close(o, wire, Signed(p.continuityDeadband))
  }

  /** After the tick is simulated: which rows that differ are taken over, and as what. */
  lemma CompletedDecision(o: Frame, wire: Frame, p: Params, g: Gates)
    requires Differs(o, wire) && !Absorbed(o, wire, g)
    ensures var d := Decide(o, wire, true, p, g);
      var free := Steady(o, wire, p) && !Protected(o, wire, p, g) && !g.block;
      && (d == PromoteProtect <==> Steady(o, wire, p) && Protected(o, wire, p, g))
      && (d == PromoteMicro <==> free && !o.predicted && Micro(o, wire, p))
      && (d == PromoteContinuity <==> free && !o.predicted && !Micro(o, wire, p) && Continues(o, wire, p))
      && (d == PromoteHashConfirm <==>
            free && o.predicted && g.hashConfirm && Close(o, wire, Signed(p.continuityDeadband)))
      && (d == Rewind || d in {PromoteProtect, PromoteMicro, PromoteContinuity, PromoteHashConfirm})
  {
    ShedIff(o, wire, p);
    OneIntentIff(o, wire, p);
    DashIff(o, wire, p);
    CloseIff(o, wire, p.microDeadband);
    CloseIff(o, wire, p.continuityDeadband);
    hide IsRelease, Shed, SameIntent, OneIntent, DashDisagrees, DashChanged, Within, Close, Signed;
  }

  /** The classification, first match first. */
  lemma Classified(o: Frame, wire: Frame, p: Params)
    ensures var c := Classify(o, wire, p);
      var quiet := o.buttons == wire.buttons && !Shed(o, wire, Signed(p.confirmedDeadband));
      var onset := Boxed(o, Signed(p.predictDeadband)) && !Boxed(wire, Signed(p.predictDeadband));
      && (c == Button <==> o.buttons != wire.buttons)
      && (c == Release <==> o.buttons == wire.buttons && Shed(o, wire, Signed(p.confirmedDeadband)))
      && (c == OnsetFromZero <==> quiet && onset)
      && (c == MicroStick <==> quiet && !onset && OneIntent(o, wire, p) && Micro(o, wire, p))
      && (c == SameIntentContinuity <==>
            quiet && !onset && OneIntent(o, wire, p) && !Micro(o, wire, p) && Continues(o, wire, p))
  {
    ShedIff(o, wire, p);
    OneIntentIff(o, wire, p);
    CloseIff(o, wire, p.microDeadband);
    CloseIff(o, wire, p.continuityDeadband);
    hide IsRelease, Shed, SameIntent, OneIntent, Within, Close, Signed;
  }
}
