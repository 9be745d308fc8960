/** Blending at every turn compounds: a position, a reply and an opponent for which two
    blended turns cost more than the documented bound. */
module Compounding {
  import opened GameRules
  import opened Vectors
  import opened MatrixGame
  import opened ZeroSum
  import opened StageGame
  import opened RoundSolver
  import opened RoundGuarantee
  import opened Exploit
  import opened Blending

  /** The reply that always charges. */
  function Charging(): Policy {
    (h, own, other, t) => Pure(|AffordableActions(own)|, 0)
  }

  lemma ChargingLegal()
    ensures Legal(Charging())
  {
    forall h: History, own, other, t | KiRange(own) ensures MixFor(Charging()(h, own, other, t), own) {
      var n := |AffordableActions(own)|;
      ActionAt(own, 0) by { AffordableCases(own); }
      DotPure(n, 0, Const(n, 0.0));
    }
  }

  function Constant(eps: real): int -> real {
    t => eps
  }

  /** The table with charging blended in at every turn. */
  ghost function ChargingBlend(s: Solver, lam: real, eps: real): Policy
    requires Sound(s)
  {
    ChargingLegal();
    BlendEach(s, lam, Charging(), Constant(eps))
  }

  function AttackIndex(ki: int): nat {
    if ki >= Cost(EnergyWave) then Position(EnergyWave, ki)
    else if ki >= Cost(Attack) then Position(Attack, ki)
    else 0
  }

  /** An opponent who answers with the energy wave while it can be paid for, then with
      an attack. */
  function Attacker(): Policy {
    (h, own, other, t) =>
      var n := |AffordableActions(own)|;
      Pure(n, AttackIndex(own))
  }

  lemma ChargingBlendLegal(s: Solver, lam: real, eps: real)
    requires Sound(s) && 0.0 <= eps <= 1.0
    ensures Legal(ChargingBlend(s, lam, eps))
    ensures Shares(Rest(Constant(eps)))
    ensures KeepsShare(ChargingBlend(s, lam, eps), s, lam, PerTurn(Rest(Constant(eps))))
  {
    ChargingLegal();
    hide BlendEach, KeepsShare, Legal;
    BlendEachKeeps(s, lam, Charging(), Constant(eps));
  }

  lemma AttackerLegal()
    ensures Legal(Attacker())
  {
    forall h: History, own, other, t | KiRange(own) ensures MixFor(Attacker()(h, own, other, t), own) {
      AffordableCases(own);
      var n := |AffordableActions(own)|;
      DotPure(n, AttackIndex(own), Const(n, 0.0));
    }
  }

  // ----- the position is won -----

  /** An action that earns at least g against every reply makes the state worth g. */
  lemma SafeAction(s: Solver, lam: real, d: real, myKi: int, oppKi: int, turn: int, me: Action, g: real)
    requires KiRange(myKi) && KiRange(oppKi) && turn <= TURN_LIMIT && 0.0 <= lam <= 1.0 && Accurate(s, d)
    requires Affordable(me, myKi)
    requires forall o :: Affordable(o, oppKi) ==>
      StagePayoff(me, o, myKi, oppKi, turn, LamLeaves(lam), Values(s, LamLeaves(lam))) >= g
    ensures Value(s, LamLeaves(lam), myKi, oppKi, turn) >= g - d
  {
    hide Value, Mix, Accurate, StagePayoff, AffordableActions;
    var a := StageMatrix(myKi, oppKi, turn, LamLeaves(lam), Values(s, LamLeaves(lam)));
    var y := StageSolved(s, lam, d, myKi, oppKi, turn);
    var k := Position(me, myKi);
    PositionOf(me, myKi);
    forall j | 0 <= j < |y| ensures a[k][j] >= g {
      ActionAt(oppKi, j);
    }
    RowAtLeast(a[k], y, g);
    assert MatVec(a, y)[k] == Dot(a[k], y);
  }

  lemma RowAtLeast(r: Vec, y: Vec, g: real)
    requires |r| == |y| && Simplex(y) && forall j :: 0 <= j < |r| ==> r[j] >= g
    ensures Dot(r, y) >= g
  {
    hide Dot, Sum;
    DotComm(r, y);
    DotConst(y, g);
    DotMono(y, Const(|y|, g), r);
  }

  /** With nine ki against at most five, teleporting through the last turn wins. */
  lemma LastTurnWon(s: Solver, lam: real, d: real, oppKi: int)
    requires 0 <= oppKi <= 5 && 0.0 <= lam <= 1.0 && Accurate(s, d)
    ensures Value(s, LamLeaves(lam), 9, oppKi, 20) >= 1.0 - d
  {
    hide Value, Accurate;
    SafeAction(s, lam, d, 9, oppKi, 20, Teleport, 1.0);
  }

  /** With ten ki against four and two turns to go, teleporting twice wins. */
  lemma PositionWon(s: Solver, lam: real, d: real)
    requires 0.0 <= lam <= 1.0 && Accurate(s, d)
    ensures Value(s, LamLeaves(lam), 10, 4, 19) >= 1.0 - 2.0 * d
  {
    hide Value, Accurate;
    forall o | Affordable(o, 4)
      ensures StagePayoff(Teleport, o, 10, 4, 19, LamLeaves(lam), Values(s, LamLeaves(lam))) >= 1.0 - d
    {
      LastTurnWon(s, lam, d, KiAfter(o, 4));
    }
    SafeAction(s, lam, d, 10, 4, 19, Teleport, 1.0 - d);
  }

  // ----- and blending charges into it loses twice over -----

  /** A mix that charges with weight eps, where charging is worth nothing and nothing
      is worth more than top, is worth at most (1 - eps) top. */
  lemma BlendedAtMost(x: Vec, u: Vec, eps: real, top: real)
    requires |x| == |u| > 0 && Simplex(x) && 0.0 <= eps <= 1.0
    requires u[0] == 0.0 && forall i :: 0 <= i < |u| ==> 0.0 <= u[i] <= top
    ensures Dot(Blend(x, Pure(|x|, 0), eps), u) <= Times(1.0 - eps, top)
  {
    hide Dot, Blend, Times, Sum;
    BlendEarns(x, Pure(|x|, 0), u, eps);
    DotPure(|x|, 0, u);
    SimplexAverage(x, u, 0.0, top);
    TimesZero(eps);
    TimesBoth(1.0 - eps, 1.0 - eps, Dot(x, u), top);
  }

  lemma TimesZero(p: real)
    ensures Times(p, 0.0) == 0.0
  {}

  lemma AgainstColumn(m: Mat, n: nat, j: nat, i: nat)
    requires Shape(m, |m|, n) && j < n && i < |m|
    ensures MatVec(m, Pure(n, j))[i] == m[i][j]
  {
    hide Dot;
    DotComm(m[i], Pure(n, j));
    DotPure(n, j, m[i]);
  }

  lemma ColumnAtMost(m: Mat, x: Vec, n: nat, j: nat, eps: real, top: real)
    requires Game(m, |x|, n) && j < n && Simplex(x) && 0.0 <= eps <= 1.0
    requires m[0][j] == 0.0 && forall i :: 0 <= i < |x| ==> 0.0 <= m[i][j] <= top
    ensures Bilinear(Blend(x, Pure(|x|, 0), eps), m, Pure(n, j)) <= Times(1.0 - eps, top)
  {
    hide Dot, Blend, Times, Sum;
    var u := MatVec(m, Pure(n, j));
    forall i | 0 <= i < |x| ensures u[i] == m[i][j] {
      AgainstColumn(m, n, j, i);
    }
    BlendedAtMost(x, u, eps, top);
  }

  lemma BlendHere(s: Solver, lam: real, eps: real, h: History, myKi: int, oppKi: int, turn: int)
    requires Sound(s) && KiRange(myKi) && myKi >= Cost(EnergyWave)
    ensures var x := TablePolicy(s, lam)(h, myKi, oppKi, turn);
      && |x| == 5 && Simplex(x) && |Pure(5, 0)| == 5
      && ChargingBlend(s, lam, eps)(h, myKi, oppKi, turn) == Blend(x, Pure(5, 0), eps)
  {
    hide TablePolicy, Blend;
    TableAt(s, lam, h, myKi, oppKi, turn);
    AffordableCases(myKi);
  }

  lemma AttackerHere(h: History, own: int, other: int, turn: int)
    requires own in {1, 4}
    ensures Attacker()(h, own, other, turn) == if own == 1 then Pure(4, 2) else Pure(5, 3)
    ensures |Pure(4, 2)| == 4 && |Pure(5, 3)| == 5
  {
    AffordableCases(own);
  }

  /** An entry at the last turn is a leaf. */
  lemma LastEntry(row: Policy, col: Policy, w: Leaves, a: int, b: int, h: History, i: nat, j: nat)
    requires Legal(row) && Legal(col) && i < |AffordableActions(a)| && j < |AffordableActions(b)|
    ensures PlayMatrix(row, col, w, a, b, 20, h)[i][j]
         == StagePayoff(AffordableActions(a)[i], AffordableActions(b)[j], a, b, 20, w, (_, _, _) => 0.0)
  {
    hide Expected;
  }

  /** An entry before it is a leaf or the worth of the turn after. */
  lemma EarlierEntry(row: Policy, col: Policy, w: Leaves, a: int, b: int, h: History, i: nat, j: nat)
    requires Legal(row) && Legal(col) && i < |AffordableActions(a)| && j < |AffordableActions(b)|
    ensures var me, opp := AffordableActions(a)[i], AffordableActions(b)[j];
      var q := PlayMatrix(row, col, w, a, b, 19, h)[i][j];
      match ImmediateOutcome(me, opp)
      case 1 => q == w.win
      case -1 => q == w.loss
      case _ => q == Expected(row, col, w, KiAfter(me, a), KiAfter(opp, b), 20, h + [(me, opp)])
  {
    hide Expected;
  }

  /** The last turn: the attack punishes the charge. */
  lemma LastTurnLoss(s: Solver, lam: real, eps: real, myKi: int, h: History)
    requires Sound(s) && 0.0 <= lam <= 1.0 && 0.0 <= eps <= 1.0 && myKi in {7, 9}
    ensures Legal(ChargingBlend(s, lam, eps)) && Legal(Attacker())
    ensures 0.0 <= Expected(ChargingBlend(s, lam, eps), Attacker(), LamLeaves(lam), myKi, 1, 20, h) <= 1.0 - eps
  {
    hide TablePolicy, Blend, Bilinear, Times, Sum, Expected, PlayMatrix, AffordableActions, ChargingBlend, Attacker,
      Legal, Pure;
    ChargingBlendLegal(s, lam, eps);
    AttackerLegal();
    var row, col, w := ChargingBlend(s, lam, eps), Attacker(), LamLeaves(lam);
    var m, x := PlayMatrix(row, col, w, myKi, 1, 20, h), TablePolicy(s, lam)(h, myKi, 1, 20);
    BlendHere(s, lam, eps, h, myKi, 1, 20);
    AttackerHere(h, 1, myKi, 20);
    AffordableCases(myKi);
    AffordableCases(1);
    forall i, j | 0 <= i < 5 && 0 <= j < 4 ensures 0.0 <= m[i][j] <= 1.0 {
      LastEntry(row, col, w, myKi, 1, h, i, j);
    }
    LastEntry(row, col, w, myKi, 1, h, 0, 2);
    ColumnAtMost(m, x, 4, 2, eps, 1.0);
    TimesOne(1.0 - eps);
    MixesAt(row, h, myKi, 1, 20);
    MixesAt(col, h, 1, myKi, 20);
    AverageInUnit(m, row(h, myKi, 1, 20), Pure(4, 2));
    ExpectedHere(row, col, w, myKi, 1, 20, h);
  }

  /** The turn before: the wave punishes the charge. */
  lemma BothTurnsLoss(s: Solver, lam: real, eps: real, h: History)
    requires Sound(s) && 0.0 <= lam <= 1.0 && 0.0 <= eps <= 1.0
    ensures Legal(ChargingBlend(s, lam, eps)) && Legal(Attacker())
    ensures Expected(ChargingBlend(s, lam, eps), Attacker(), LamLeaves(lam), 10, 4, 19, h)
      <= Times(1.0 - eps, 1.0 - eps)
  {
    hide TablePolicy, Blend, Bilinear, Times, Sum, Expected, PlayMatrix, AffordableActions, ChargingBlend, Attacker,
      Legal, Pure;
    ChargingBlendLegal(s, lam, eps);
    AttackerLegal();
    var row, col, w := ChargingBlend(s, lam, eps), Attacker(), LamLeaves(lam);
    var m, x := PlayMatrix(row, col, w, 10, 4, 19, h), TablePolicy(s, lam)(h, 10, 4, 19);
    BlendHere(s, lam, eps, h, 10, 4, 19);
    AttackerHere(h, 4, 10, 19);
    AffordableCases(10);
    AffordableCases(4);
    LastTurnLoss(s, lam, eps, 7, h + [(EnergyWave, EnergyWave)]);
    LastTurnLoss(s, lam, eps, 9, h + [(Teleport, EnergyWave)]);
    EarlierEntry(row, col, w, 10, 4, h, 0, 3);
    EarlierEntry(row, col, w, 10, 4, h, 1, 3);
    EarlierEntry(row, col, w, 10, 4, h, 2, 3);
    EarlierEntry(row, col, w, 10, 4, h, 3, 3);
    EarlierEntry(row, col, w, 10, 4, h, 4, 3);
    ColumnAtMost(m, x, 5, 3, eps, 1.0 - eps);
    ExpectedHere(row, col, w, 10, 4, 19, h);
  }

  lemma TwoTurnsKept(eps: real)
    ensures Kept(Rest(Constant(eps)), 19) == Times(1.0 - eps, 1.0 - eps)
  {
    var c := Rest(Constant(eps));
    assert Kept(c, 21) == 1.0;
    assert Kept(c, 20) == Times(c(20), 1.0) == 1.0 - eps;
  }

  /** Where the documented bound fails. With ten ki against four and two turns to go the
      position is won, whatever a draw is worth. Blending charges in with weight eps at
      both turns costs, against this opponent, exactly what the solved value and the
      share given up allow, 1 - (1 - eps)^2, up to the solver's error. */
  lemma TwoTurnsCost(s: Solver, lam: real, d: real, eps: real, h: History)
    requires Accurate(s, d) && Sound(s) && 0.0 <= lam <= 1.0 && 0.0 <= eps <= 1.0
    ensures Legal(ChargingBlend(s, lam, eps)) && Legal(Attacker())
    ensures var v := Value(s, LamLeaves(lam), 10, 4, 19);
      var lost := v - Expected(ChargingBlend(s, lam, eps), Attacker(), LamLeaves(lam), 10, 4, 19, h);
      && 1.0 - 2.0 * d <= v <= 1.0
      && 2.0 * eps - Times(eps, eps) - 2.0 * d <= lost <= 2.0 * eps - Times(eps, eps) + 2.0 * d
  {
    hide Value, Expected, Accurate, Legal, ChargingBlend, Times, Kept, KeepsShare;
    PositionWon(s, lam, d);
    ValueRange(s, lam, 10, 4, 19);
    ChargingBlendLegal(s, lam, eps);
    BothTurnsLoss(s, lam, eps, h);
    SquareRest(eps);
    TwoTurnsKept(eps);
    var row, v := ChargingBlend(s, lam, eps), Value(s, LamLeaves(lam), 10, 4, 19);
    var lost := 2.0 * eps - Times(eps, eps);
    CostIsAtMost(v, lost);
    assert 1.0 - Kept(Rest(Constant(eps)), 19) == lost;
    NormalizedUnits(lam, lam);
    BoundWhenCheap(row, s, lam, d, Rest(Constant(eps)), lost, Attacker(), LamLeaves(lam), 10, 4, 19, h);
    NormalizedUnits(lam, v - 2.0 * d - lost);
  }

  lemma CostIsAtMost(v: real, lost: real)
    requires v <= 1.0 && 0.0 <= lost
    ensures Times(v, lost) <= lost
  {
    MulMono(lost, v, 1.0);
  }

  /** So at this position, with the exact solver, the documented bound eps holds for the
      two blended turns if and only if the solved value times the share given up is at
      most eps: for no weight strictly between zero and one. */
  lemma BoundHereExactlyWhen(s: Solver, lam: real, eps: real, h: History)
    requires Accurate(s, 0.0) && Sound(s) && 0.0 <= lam <= 1.0 && 0.0 <= eps <= 1.0
    ensures Legal(ChargingBlend(s, lam, eps)) && Legal(Attacker())
    ensures var v := Value(s, LamLeaves(lam), 10, 4, 19);
      var lost := v - Expected(ChargingBlend(s, lam, eps), Attacker(), LamLeaves(lam), 10, 4, 19, h);
      && (lost <= ExploitabilityBound(eps) <==> Times(v, 1.0 - Kept(Rest(Constant(eps)), 19)) <= eps)
      && (lost <= ExploitabilityBound(eps) <==> eps == 0.0 || eps == 1.0)
  {
    hide Value, Expected, Accurate, Legal, ChargingBlend, Times, Kept;
    TwoTurnsCost(s, lam, 0.0, eps, h);
    TwoTurnsKept(eps);
    SquareRest(eps);
    TimesOne(1.0 - Kept(Rest(Constant(eps)), 19));
    assert Value(s, LamLeaves(lam), 10, 4, 19) == 1.0;
    TimesOne(1.0 - Kept(Rest(Constant(eps)), 19));
  }

  lemma SquareRest(eps: real)
    requires 0.0 <= eps <= 1.0
    ensures Times(1.0 - eps, 1.0 - eps) == 1.0 - 2.0 * eps + Times(eps, eps)
    ensures 0.0 <= Times(eps, eps) <= eps
    ensures Times(eps, eps) == eps <==> eps == 0.0 || eps == 1.0
  {
    MulNonNeg(eps, eps);
    if 0.0 < eps < 1.0 { StrictPart(eps, eps); }
  }

  lemma StrictPart(p: real, q: real)
    requires 0.0 < p && q < 1.0
    ensures Times(p, q) < p
  {}
}
