/** How the worth of a round depends on what a draw is worth, and what it costs to play
    the table of a nearby draw weight. */
module DrawWeights {
  import opened GameRules
  import opened Vectors
  import opened MatrixGame
  import opened ZeroSum
  import opened StageGame
  import opened RoundSolver
  import opened RoundGuarantee

  // ----- matrices with nearby entries -----

  /** Every entry of b is at least the entry of a, less e. */
  ghost predicate NoWorse(a: Mat, b: Mat, n: nat, m: nat, e: real)
    requires Shape(a, n, m) && Shape(b, n, m)
  {
    forall i, j :: 0 <= i < n && 0 <= j < m ==> b[i][j] >= a[i][j] - e
  }

  lemma AverageNoWorse(a: Mat, b: Mat, x: Vec, y: Vec, e: real)
    requires Shape(a, |x|, |y|) && Shape(b, |x|, |y|) && Simplex(x) && Simplex(y) && NoWorse(a, b, |x|, |y|, e)
    ensures Bilinear(x, b, y) >= Bilinear(x, a, y) - e
  {
    hide Dot, Sum;
    var u, u' := MatVec(a, y), MatVec(b, y);
    forall i | 0 <= i < |x| ensures Shift(u, -e)[i] <= u'[i] {
      DotComm(a[i], y);
      DotComm(b[i], y);
      MixShift(y, a[i], -e);
      DotMono(y, Shift(a[i], -e), b[i]);
    }
    MixShift(x, u, -e);
    DotMono(x, Shift(u, -e), u');
  }

  /** A game whose payoffs are nowhere lower by more than e is not worth less by more. */
  lemma ValueNoWorse(a: Mat, x: Vec, y: Vec, v: real, b: Mat, x': Vec, y': Vec, v': real, d: real, e: real)
    requires Saddle(a, x, y, v, d) && Saddle(b, x', y', v', d)
    requires |x| == |x'| && |y| == |y'| && NoWorse(a, b, |x|, |y|, e)
    ensures v' >= v - e - 2.0 * d
  {
    hide Bilinear;
    GuaranteeAgainstMix(x, a, y', v - d);
    ConcessionAgainstMix(x, b, y', v' + d);
    AverageNoWorse(a, b, x, y', e);
  }

  // ----- the value of a round -----

  lemma PayoffNoWorse(me: Action, opp: Action, myKi: int, oppKi: int, turn: int, w: Leaves, w': Leaves,
                      f: ValueFn, g: ValueFn, e: real)
    requires w'.win >= w.win - e && w'.draw >= w.draw - e && w'.loss >= w.loss - e
    requires turn < TURN_LIMIT && ImmediateOutcome(me, opp) == 0 ==>
      var a, b := KiAfter(me, myKi), KiAfter(opp, oppKi); g(a, b, turn + 1) >= f(a, b, turn + 1) - e
    ensures StagePayoff(me, opp, myKi, oppKi, turn, w', g) >= StagePayoff(me, opp, myKi, oppKi, turn, w, f) - e
  {}

  ghost predicate LayerNoWorse(f: ValueFn, g: ValueFn, turn: int, e: real) {
    forall a, b :: KiRange(a) && KiRange(b) ==> g(a, b, turn) >= f(a, b, turn) - e
  }

  lemma StageNoWorse(myKi: int, oppKi: int, turn: int, w: Leaves, w': Leaves, f: ValueFn, g: ValueFn, e: real)
    requires 0 <= myKi && 0 <= oppKi
    requires w'.win >= w.win - e && w'.draw >= w.draw - e && w'.loss >= w.loss - e
    requires turn < TURN_LIMIT ==> LayerNoWorse(f, g, turn + 1, e)
    ensures NoWorse(StageMatrix(myKi, oppKi, turn, w, f), StageMatrix(myKi, oppKi, turn, w', g),
                    |AffordableActions(myKi)|, |AffordableActions(oppKi)|, e)
  {
    hide StagePayoff, AffordableActions;
    var rows, cols := AffordableActions(myKi), AffordableActions(oppKi);
    forall i, j | 0 <= i < |rows| && 0 <= j < |cols|
      ensures StagePayoff(rows[i], cols[j], myKi, oppKi, turn, w', g)
           >= StagePayoff(rows[i], cols[j], myKi, oppKi, turn, w, f) - e
    {
      var a, b := KiAfter(rows[i], myKi), KiAfter(cols[j], oppKi);
      assert KiRange(a) && KiRange(b);
      PayoffNoWorse(rows[i], cols[j], myKi, oppKi, turn, w, w', f, g, e);
    }
  }

  /** If from draw weight lam to mu no leaf drops by more than e, no value drops by more
      than e and twice the solver's error per remaining turn. */
  lemma {:induction false} ValuesNoWorse(s: Solver, lam: real, mu: real, d: real, e: real, myKi: int, oppKi: int,
                                         turn: int)
    requires KiRange(myKi) && KiRange(oppKi) && turn <= TURN_LIMIT && Accurate(s, d) && Sound(s)
    requires 0.0 <= lam <= 1.0 && 0.0 <= mu <= 1.0 && e >= 0.0 && mu >= lam - e
    ensures Value(s, LamLeaves(mu), myKi, oppKi, turn)
         >= Value(s, LamLeaves(lam), myKi, oppKi, turn) - e - 2.0 * Slack(d, turn)
    decreases TURN_LIMIT - turn
  {
    hide Value, Accurate, Saddle, StageMatrix, Mix, Slack, NoWorse;
    AccurateIsSound(s, d);
    SlackStep(d, turn);
    var slip := e + 2.0 * Slack(d, turn + 1);
    var f, g := Values(s, LamLeaves(lam)), Values(s, LamLeaves(mu));
    if turn < TURN_LIMIT {
      forall a, b | KiRange(a) && KiRange(b) ensures g(a, b, turn + 1) >= f(a, b, turn + 1) - slip {
        ValuesNoWorse(s, lam, mu, d, e, a, b, turn + 1);
      }
    }
    StageNoWorse(myKi, oppKi, turn, LamLeaves(lam), LamLeaves(mu), f, g, slip);
    var y := StageSolved(s, lam, d, myKi, oppKi, turn);
    var y' := StageSolved(s, mu, d, myKi, oppKi, turn);
    ValueNoWorse(StageMatrix(myKi, oppKi, turn, LamLeaves(lam), f), Mix(s, LamLeaves(lam), myKi, oppKi, turn), y,
                 Value(s, LamLeaves(lam), myKi, oppKi, turn),
                 StageMatrix(myKi, oppKi, turn, LamLeaves(mu), g), Mix(s, LamLeaves(mu), myKi, oppKi, turn), y',
                 Value(s, LamLeaves(mu), myKi, oppKi, turn), d, slip);
  }

  /** A round is worth more the more a draw is worth, and never more than that more: at
      every state the value is monotone and 1-Lipschitz in the draw weight, exactly so
      with the exact solver. */
  lemma DrawWeightBounds(s: Solver, lam: real, mu: real, d: real, myKi: int, oppKi: int, turn: int)
    requires KiRange(myKi) && KiRange(oppKi) && turn <= TURN_LIMIT && Accurate(s, d) && Sound(s)
    requires 0.0 <= lam <= mu <= 1.0
    ensures var v, v' := Value(s, LamLeaves(lam), myKi, oppKi, turn), Value(s, LamLeaves(mu), myKi, oppKi, turn);
      v - 2.0 * Slack(d, turn) <= v' <= v + (mu - lam) + 2.0 * Slack(d, turn)
  {
    hide Value, Accurate, Slack;
    ValuesNoWorse(s, lam, mu, d, 0.0, myKi, oppKi, turn);
    ValuesNoWorse(s, mu, lam, d, mu - lam, myKi, oppKi, turn);
  }

  function Least(p: real, q: real): real {
    if p <= q then p else q
  }

  function Greatest(p: real, q: real): real {
    if p <= q then q else p
  }

  /** The worth of starting a round lies between one half and what a draw is worth: at
      least one half exactly on the side where a draw is worth at least one half. */
  lemma RoundStartRange(s: Solver, lam: real, d: real)
    requires 0.0 <= lam <= 1.0 && Accurate(s, d) && Sound(s)
    ensures Least(0.5, lam) - 40.0 * d <= RoundStart(s, lam) <= Greatest(0.5, lam) + 40.0 * d
  {
    hide Value, Accurate;
    RoundStartSymmetric(s, 0.5);
    assert Slack(d, 1) == 20.0 * d;
    if lam <= 0.5 {
      DrawWeightBounds(s, lam, 0.5, d, 0, 0, 1);
    } else {
      DrawWeightBounds(s, 0.5, lam, d, 0, 0, 1);
    }
  }

  /** The documented floor: whatever the draw weight, table play from the start of a
      round earns at least the lesser of one half and what a draw is worth, against
      every opponent; so at least one half whenever a draw is worth that much. */
  lemma RoundFloor(col: Policy, s: Solver, lam: real, d: real)
    requires Legal(col) && Accurate(s, d) && Sound(s) && 0.0 <= lam <= 1.0
    ensures Legal(TablePolicy(s, lam))
    ensures Expected(TablePolicy(s, lam), col, LamLeaves(lam), 0, 0, 1, []) >= Least(0.5, lam) - 60.0 * d
  {
    hide Value, Expected, Accurate, InUnits, TablePolicy, Least;
    AccurateIsSound(s, d);
    NormalizedUnits(lam, lam);
    TableGuarantee(col, LamLeaves(lam), s, lam, d, 0, 0, 1, []);
    RoundStartRange(s, lam, d);
    NormalizedUnits(lam, RoundStart(s, lam) - 20.0 * d);
  }

  // ----- playing the table of a nearby weight -----

  /** Changing the leaves by at most u changes what any two players earn by at most u. */
  lemma {:induction false} ExpectedNoWorse(row: Policy, col: Policy, w: Leaves, w': Leaves, u: real,
                                           myKi: int, oppKi: int, turn: int, h: History)
    requires Legal(row) && Legal(col) && KiRange(myKi) && KiRange(oppKi) && turn <= TURN_LIMIT && u >= 0.0
    requires w'.win >= w.win - u && w'.draw >= w.draw - u && w'.loss >= w.loss - u
    ensures Expected(row, col, w', myKi, oppKi, turn, h) >= Expected(row, col, w, myKi, oppKi, turn, h) - u
    decreases TURN_LIMIT - turn
  {
    hide Expected, PlayMatrix, Bilinear, Legal, AffordableActions;
    var n, l := |AffordableActions(myKi)|, |AffordableActions(oppKi)|;
    var m, m' := PlayMatrix(row, col, w, myKi, oppKi, turn, h), PlayMatrix(row, col, w', myKi, oppKi, turn, h);
    forall i, j | 0 <= i < n && 0 <= j < l ensures m'[i][j] >= m[i][j] - u {
      var me, opp := AffordableActions(myKi)[i], AffordableActions(oppKi)[j];
      if turn < TURN_LIMIT && ImmediateOutcome(me, opp) == 0 {
        ExpectedNoWorse(row, col, w, w', u, KiAfter(me, myKi), KiAfter(opp, oppKi), turn + 1, h + [(me, opp)]);
      }
      EntryNoWorse(row, col, w, w', u, myKi, oppKi, turn, h, i, j);
    }
    MixesAt(row, h, myKi, oppKi, turn);
    MixesAt(col, h, oppKi, myKi, turn);
    AverageNoWorse(m, m', row(h, myKi, oppKi, turn), col(h, oppKi, myKi, turn), u);
    ExpectedHere(row, col, w, myKi, oppKi, turn, h);
    ExpectedHere(row, col, w', myKi, oppKi, turn, h);
  }

  lemma EntryNoWorse(row: Policy, col: Policy, w: Leaves, w': Leaves, u: real,
                     myKi: int, oppKi: int, turn: int, h: History, i: nat, j: nat)
    requires Legal(row) && Legal(col) && KiRange(myKi) && KiRange(oppKi) && turn <= TURN_LIMIT
    requires w'.win >= w.win - u && w'.draw >= w.draw - u && w'.loss >= w.loss - u
    requires i < |AffordableActions(myKi)| && j < |AffordableActions(oppKi)|
    requires var me, opp := AffordableActions(myKi)[i], AffordableActions(oppKi)[j];
      turn < TURN_LIMIT && ImmediateOutcome(me, opp) == 0 ==>
        Expected(row, col, w', KiAfter(me, myKi), KiAfter(opp, oppKi), turn + 1, h + [(me, opp)])
        >= Expected(row, col, w, KiAfter(me, myKi), KiAfter(opp, oppKi), turn + 1, h + [(me, opp)]) - u
    ensures PlayMatrix(row, col, w', myKi, oppKi, turn, h)[i][j]
      >= PlayMatrix(row, col, w, myKi, oppKi, turn, h)[i][j] - u
  {
    hide Expected, AffordableActions;
    var me, opp := AffordableActions(myKi)[i], AffordableActions(oppKi)[j];
    var h' := h + [(me, opp)];
    var f: ValueFn := (a, b, t) =>
      if turn < t <= TURN_LIMIT && KiRange(a) && KiRange(b) then Expected(row, col, w, a, b, t, h') else 0.0;
    var g: ValueFn := (a, b, t) =>
      if turn < t <= TURN_LIMIT && KiRange(a) && KiRange(b) then Expected(row, col, w', a, b, t, h') else 0.0;
    assert PlayMatrix(row, col, w, myKi, oppKi, turn, h)[i][j] == StagePayoff(me, opp, myKi, oppKi, turn, w, f);
    assert PlayMatrix(row, col, w', myKi, oppKi, turn, h)[i][j] == StagePayoff(me, opp, myKi, oppKi, turn, w', g);
    hide StagePayoff;
    PayoffNoWorse(me, opp, myKi, oppKi, turn, w, w', f, g, u);
  }

  /** Rounding the draw weight by at most u costs at most 2 u: the table solved for the
      rounded weight, played in a round with the exact one, still earns the value for
      the exact weight less 2 u and three times the solver's error per turn. */
  lemma RoundedWeight(col: Policy, s: Solver, lam: real, rounded: real, u: real, d: real,
                      myKi: int, oppKi: int, turn: int, h: History)
    requires Legal(col) && Accurate(s, d) && Sound(s) && KiRange(myKi) && KiRange(oppKi) && 1 <= turn <= TURN_LIMIT
    requires 0.0 <= lam <= 1.0 && 0.0 <= rounded <= 1.0 && -u <= lam - rounded <= u
    ensures Legal(TablePolicy(s, rounded))
    ensures Expected(TablePolicy(s, rounded), col, LamLeaves(lam), myKi, oppKi, turn, h)
         >= Value(s, LamLeaves(lam), myKi, oppKi, turn) - 2.0 * u - 3.0 * Slack(d, turn)
  {
    hide Value, Expected, Accurate, InUnits, TablePolicy;
    AccurateIsSound(s, d);
    NormalizedUnits(rounded, rounded);
    TableGuarantee(col, LamLeaves(rounded), s, rounded, d, myKi, oppKi, turn, h);
    NormalizedUnits(rounded, Value(s, LamLeaves(rounded), myKi, oppKi, turn) - Slack(d, turn));
    ValuesNoWorse(s, lam, rounded, d, u, myKi, oppKi, turn);
    ExpectedNoWorse(TablePolicy(s, rounded), col, LamLeaves(rounded), LamLeaves(lam), u, myKi, oppKi, turn, h);
  }
}
