/** Exploiting a modelled opponent: the best reply to the model, its blend with the
    solved mix, the weight of the blend, and the noise floor. */
module Exploit {
  import opened Wrappers
  import opened GameRules
  import opened MatchEngine
  import opened Vectors
  import opened MatrixGame
  import opened StageGame
  import opened RoundGuarantee

  // ----- the best reply to a distribution -----

  /** Payoffs this close to the best count as tied with it. */
  const TIE := 0.000000001

  /** What each of my affordable actions earns on average against the model. */
  function Earnings(probs: Vec, myKi: int, oppKi: int, turn: int, lam: real, next: ValueFn): (u: Vec)
    requires |probs| == |AffordableActions(oppKi)|
    ensures |u| == |AffordableActions(myKi)|
  {
    MatVec(StageMatrix(myKi, oppKi, turn, LamLeaves(lam), next), probs)
  }

  /** Marks the entries tied with the best. */
  function Near(u: Vec): (r: Vec)
    requires u != []
    ensures |r| == |u|
  {
    seq(|u|, i requires 0 <= i < |u| => if u[i] >= Max(u) - TIE then 1.0 else 0.0)
  }

  /** Equal shares for the tied entries. */
  function BestMix(u: Vec): (r: Vec)
    requires u != []
    ensures |r| == |u|
  {
    NearMass(u);
    Scale(1.0 / Sum(Near(u)), Near(u))
  }

  lemma NearMass(u: Vec)
    requires u != []
    ensures Sum(Near(u)) >= 1.0
  {
    hide Sum;
    var top := Max(u);
    var k :| 0 <= k < |u| && u[k] == top;
    SumNonNeg(Near(u));
    assert Near(u)[k] == 1.0;
  }

  /** The best reply is a mix, plays exactly the tied actions, and no mix whatsoever
      earns more than it by more than the tie tolerance. */
  lemma BestMixOptimal(u: Vec, x: Vec)
    requires u != [] && |x| == |u| && Simplex(x)
    ensures Simplex(BestMix(u))
    ensures forall i :: 0 <= i < |u| ==> (BestMix(u)[i] > 0.0 <==> u[i] >= Max(u) - 0.000000001)
    ensures Dot(BestMix(u), u) >= Max(u) - 0.000000001 >= Dot(x, u) - 0.000000001
  {
    hide Dot, Max, Sum;
    BestMixShape(u);
    DotConst(x, Max(u));
    DotMono(x, u, Const(|u|, Max(u)));
    BestMixEarns(u);
  }

  lemma BestMixShape(u: Vec)
    requires u != []
    ensures Simplex(BestMix(u))
    ensures forall i :: 0 <= i < |u| ==> (BestMix(u)[i] > 0.0 <==> u[i] >= Max(u) - TIE)
  {
    hide Sum, Max;
    NearMass(u);
    var total := Sum(Near(u));
    SumScale(1.0 / total, Near(u));
    assert 1.0 / total > 0.0;
  }

  lemma BestMixEarns(u: Vec)
    requires u != []
    ensures Dot(BestMix(u), u) >= Max(u) - TIE
  {
    var b, floor := BestMix(u), Max(u) - TIE;
    hide Dot, Max;
    BestMixShape(u);
    DotConst(b, floor);
    SupportEarns(b, u, floor);
  }

  lemma SupportEarns(b: Vec, u: Vec, floor: real)
    requires |b| == |u| && NonNeg(b) && forall i :: 0 <= i < |b| && b[i] > 0.0 ==> u[i] >= floor
    ensures Dot(b, u) >= Dot(b, Const(|b|, floor))
  {
    hide Dot, Times;
    forall i | 0 <= i < |b| ensures Times(b[i], u[i]) >= Times(b[i], Const(|b|, floor)[i]) {
      WeightedAtLeast(b[i], floor, u[i]);
    }
    DotTermwise(b, u, Const(|b|, floor));
  }

  lemma DotHead(x: Vec, y: Vec)
    requires |x| == |y| && x != []
    ensures Dot(x, y) == Times(x[0], y[0]) + Dot(x[1..], y[1..])
  {}

  lemma {:induction false} DotTermwise(x: Vec, y: Vec, z: Vec)
    requires |x| == |y| == |z|
    requires forall i :: 0 <= i < |x| ==> Times(x[i], y[i]) >= Times(x[i], z[i])
    ensures Dot(x, y) >= Dot(x, z)
  {
    if x == [] {
      EmptyDot();
    } else {
      hide Dot, Times;
      DotHead(x, y);
      DotHead(x, z);
      forall i | 0 <= i < |x[1..]| ensures Times(x[1..][i], y[1..][i]) >= Times(x[1..][i], z[1..][i]) {
        assert x[1..][i] == x[i + 1] && y[1..][i] == y[i + 1] && z[1..][i] == z[i + 1];
      }
      DotTermwise(x[1..], y[1..], z[1..]);
    }
  }

  lemma WeightedAtLeast(weight: real, floor: real, u: real)
    requires weight >= 0.0 && (weight > 0.0 ==> u >= floor)
    ensures Times(weight, u) >= Times(weight, floor)
  {
    if weight > 0.0 { MulMono(weight, floor, u); }
  }

  lemma {:induction false} DotSnoc(x: Vec, y: Vec, a: real, b: real)
    requires |x| == |y|
    ensures Dot(x + [a], y + [b]) == Dot(x, y) + a * b
  {
    if x == [] {
      assert [a][1..] == [] && [b][1..] == [];
      assert x + [a] == [a] && y + [b] == [b];
    } else {
      assert (x + [a])[1..] == x[1..] + [a] && (y + [b])[1..] == y[1..] + [b];
      DotSnoc(x[1..], y[1..], a, b);
    }
  }

  /** Expected payoff of one action; opponent actions without mass are skipped. */
  method ExpectedPayoff(a: Action, probs: Vec, myKi: int, oppKi: int, turn: int, lam: real, next: ValueFn)
    returns (ev: real)
    requires |probs| == |AffordableActions(oppKi)| && NonNeg(probs) && 0 <= myKi && Affordable(a, myKi)
    ensures PositionInRange(a, myKi) && ev == Earnings(probs, myKi, oppKi, turn, lam, next)[Position(a, myKi)]
  {
    hide Dot, StagePayoff, AffordableActions;
    PositionOf(a, myKi);
    var cols := AffordableActions(oppKi);
    ghost var row := StageMatrix(myKi, oppKi, turn, LamLeaves(lam), next)[Position(a, myKi)];
    ev := 0.0;
    EmptyDot();
    for j := 0 to |cols|
      invariant ev == Dot(row[..j], probs[..j])
    {
      assert row[..j + 1] == row[..j] + [row[j]] && probs[..j + 1] == probs[..j] + [probs[j]];
      DotSnoc(row[..j], probs[..j], row[j], probs[j]);
      if probs[j] <= 0.0 {
        continue;
      }
      ev := ev + probs[j] * StagePayoff(a, cols[j], myKi, oppKi, turn, LamLeaves(lam), next);
    }
    assert row[..|cols|] == row && probs[..|cols|] == probs;
  }

  ghost predicate PositionInRange(a: Action, ki: int) {
    0 <= ki && Affordable(a, ki) && Position(a, ki) < |AffordableActions(ki)|
  }

  lemma EmptyDot()
    ensures Dot([], []) == 0.0
  {}

  /** The best reply to the model, ties split, as a vector over all five actions. */
  method BestResponse(probs: Vec, myKi: int, oppKi: int, turn: int, lam: real, next: ValueFn) returns (out: Vec)
    requires 0 <= myKi && 0 <= oppKi && MixFor(probs, oppKi)
    ensures Earnings(probs, myKi, oppKi, turn, lam, next) != []
    ensures out == Spread(BestMix(Earnings(probs, myKi, oppKi, turn, lam, next)), myKi)
  {
    hide Max, Earnings, BestMix, Near, StageMatrix;
    var actions := AffordableActions(myKi);
    ActionAt(myKi, 0) by { AffordableCases(myKi); }
    var evs: Vec := [];
    ghost var u := Earnings(probs, myKi, oppKi, turn, lam, next);
    for i := 0 to |actions|
      invariant evs == u[..i]
    {
      ActionAt(myKi, i);
      var ev := ExpectedPayoff(actions[i], probs, myKi, oppKi, turn, lam, next);
      evs := evs + [ev];
    }
    assert evs == u;
    forall i, j | 0 <= i < j < |actions| ensures actions[i] != actions[j] {
      ActionAt(myKi, i);
      ActionAt(myKi, j);
    }
    var winners := Winners(actions, evs);
    out := ShareAmong(winners, actions, evs, myKi);
  }

  /** The actions tied with the best. */
  method Winners(actions: seq<Action>, evs: Vec) returns (winners: seq<Action>)
    requires |actions| == |evs| > 0 && forall i, j :: 0 <= i < j < |actions| ==> actions[i] != actions[j]
    ensures |winners| as real == Sum(Near(evs)) && winners != []
    ensures forall i :: 0 <= i < |actions| ==> (actions[i] in winners <==> Near(evs)[i] == 1.0)
    ensures forall a :: a in winners ==> a in actions
  {
    hide Max, Sum;
    var bestEv := Max(evs);
    winners := [];
    SumEmpty();
    for i := 0 to |actions|
      invariant |winners| as real == Sum(Near(evs)[..i])
      invariant forall j :: 0 <= j < |actions| ==> (actions[j] in winners <==> j < i && Near(evs)[j] == 1.0)
      invariant forall a :: a in winners ==> a in actions
    {
      SumSnoc(Near(evs)[..i], Near(evs)[i]);
      assert Near(evs)[..i + 1] == Near(evs)[..i] + [Near(evs)[i]];
      if evs[i] >= bestEv - TIE {
        winners := winners + [actions[i]];
      }
    }
    assert Near(evs)[..|actions|] == Near(evs);
    NearMass(evs);
  }

  lemma SumEmpty()
    ensures Sum([]) == 0.0
  {}

  lemma {:induction false} SumSnoc(x: Vec, a: real)
    ensures Sum(x + [a]) == Sum(x) + a
  {
    if x == [] {
      assert x + [a] == [a] && [a][1..] == [];
    } else {
      assert (x + [a])[1..] == x[1..] + [a];
      SumSnoc(x[1..], a);
    }
  }

  /** Writes equal shares for the winners into a zero vector. */
  method ShareAmong(winners: seq<Action>, actions: seq<Action>, evs: Vec, ki: int) returns (out: Vec)
    requires 0 <= ki && actions == AffordableActions(ki) && |evs| == |actions| > 0
    requires |winners| as real == Sum(Near(evs)) && winners != []
    requires forall i :: 0 <= i < |actions| ==> (actions[i] in winners <==> Near(evs)[i] == 1.0)
    requires forall a :: a in winners ==> a in actions
    ensures out == Spread(BestMix(evs), ki)
  {
    hide Max, Sum;
    var share := 1.0 / |winners| as real;
    var slots := new real[5](_ => 0.0);
    for k := 0 to |winners|
      invariant forall i :: 0 <= i < 5 ==> slots[i] == if ACTION_ORDER[i] in winners[..k] then share else 0.0
    {
      assert winners[..k + 1] == winners[..k] + [winners[k]];
      assert forall i :: 0 <= i < 5 ==> ActionIndex(ACTION_ORDER[i]) == i;
      slots[ActionIndex(winners[k])] := share;
    }
    assert winners[..|winners|] == winners;
    out := slots[..];
    forall i | 0 <= i < 5 ensures out[i] == Spread(BestMix(evs), ki)[i] {
      ShareOf(winners, evs, ki, i);
    }
  }

  lemma ShareOf(winners: seq<Action>, evs: Vec, ki: int, i: nat)
    requires 0 <= ki && |evs| == |AffordableActions(ki)| > 0 && i < 5
    requires |winners| as real == Sum(Near(evs)) && winners != []
    requires forall j :: 0 <= j < |evs| ==> (AffordableActions(ki)[j] in winners <==> Near(evs)[j] == 1.0)
    requires forall a :: a in winners ==> a in AffordableActions(ki)
    ensures Spread(BestMix(evs), ki)[i] == if ACTION_ORDER[i] in winners then 1.0 / |winners| as real else 0.0
  {
    hide Max, Sum, AffordableActions;
    var a := ACTION_ORDER[i];
    if Affordable(a, ki) {
      PositionOf(a, ki);
      assert BestMix(evs)[Position(a, ki)] == 1.0 / |winners| as real * Near(evs)[Position(a, ki)];
    } else {
      forall j | 0 <= j < |AffordableActions(ki)| ensures AffordableActions(ki)[j] != a { ActionAt(ki, j); }
    }
  }

  // ----- blending -----

  function Blend(gto: Vec, br: Vec, eps: real): (r: Vec)
    requires |gto| == |br|
    ensures |r| == |gto|
  {
    Add(Scale(1.0 - eps, gto), Scale(eps, br))
  }

  lemma BlendAt(gto: Vec, br: Vec, eps: real, i: nat)
    requires i < |gto| == |br|
    ensures Blend(gto, br, eps)[i] == Times(1.0 - eps, gto[i]) + Times(eps, br[i])
  {}

  lemma BlendLegal(gto: Vec, br: Vec, eps: real, ki: int)
    requires 0 <= ki && LegalVector(gto, ki) && LegalVector(br, ki) && 0.0 <= eps <= 1.0
    ensures LegalVector(Blend(gto, br, eps), ki)
  {
    BlendMass(gto, br, eps);
    forall i | 0 <= i < 5 ensures Blend(gto, br, eps)[i] >= 0.0 {
      BlendAt(gto, br, eps, i);
      MulNonNeg(1.0 - eps, gto[i]);
      MulNonNeg(eps, br[i]);
    }
    forall i | 0 <= i < 5 && !Affordable(ACTION_ORDER[i], ki) ensures Blend(gto, br, eps)[i] == 0.0 {
      BlendAt(gto, br, eps, i);
    }
    hide Blend, Sum;
  }

  lemma BlendMass(gto: Vec, br: Vec, eps: real)
    requires |gto| == |br| && Sum(gto) == Sum(br) == 1.0
    ensures Sum(Blend(gto, br, eps)) == 1.0
  {
    hide Sum, Scale, Add;
    SumAdd(Scale(1.0 - eps, gto), Scale(eps, br));
    SumScale(1.0 - eps, gto);
    SumScale(eps, br);
  }

  lemma BlendIsMix(x: Vec, b: Vec, eps: real)
    requires |x| == |b| && Simplex(x) && Simplex(b) && 0.0 <= eps <= 1.0
    ensures Simplex(Blend(x, b, eps))
  {
    BlendMass(x, b, eps);
    hide Sum;
    ScaleNonNeg(1.0 - eps, x);
    ScaleNonNeg(eps, b);
  }

  lemma RestrictBlend(gto: Vec, br: Vec, eps: real, ki: int)
    requires |gto| == |br| == 5
    ensures Restrict(Blend(gto, br, eps), ki) == Blend(Restrict(gto, ki), Restrict(br, ki), eps)
  {
    hide Blend;
    var rows := AffordableActions(ki);
    forall k | 0 <= k < |rows|
      ensures Restrict(Blend(gto, br, eps), ki)[k] == Blend(Restrict(gto, ki), Restrict(br, ki), eps)[k]
    {
      BlendAt(gto, br, eps, ActionIndex(rows[k]));
      BlendAt(Restrict(gto, ki), Restrict(br, ki), eps, k);
    }
  }

  lemma BlendCovers(gto: Vec, br: Vec, eps: real)
    requires |gto| == |br| && NonNeg(br) && 0.0 <= eps
    ensures Covers(Blend(gto, br, eps), gto, 1.0 - eps)
  {
    hide Scale;
    ScaleNonNeg(eps, br);
  }

  lemma DotScaled(x: Vec, c: real, y: Vec)
    requires |x| == |y|
    ensures Dot(x, Scale(c, y)) == Times(c, Dot(x, y))
  {
    DotScale(x, c, y);
  }

  lemma BlendEarns(x: Vec, b: Vec, u: Vec, eps: real)
    requires |x| == |b| == |u|
    ensures Dot(Blend(x, b, eps), u) == Times(1.0 - eps, Dot(x, u)) + Times(eps, Dot(b, u))
  {
    hide Dot, Scale, Times, Add;
    var p, q := Scale(1.0 - eps, x), Scale(eps, b);
    assert Blend(x, b, eps) == Add(p, q);
    hide Blend;
    DotComm(Blend(x, b, eps), u);
    DotAdd(u, p, q);
    DotScaled(u, 1.0 - eps, x);
    DotScaled(u, eps, b);
    DotComm(x, u);
    DotComm(b, u);
  }

  lemma TimesShare(eps: real, p: real, q: real, slip: real)
    requires 0.0 <= eps && q >= p - slip
    ensures Times(1.0 - eps, p) + Times(eps, q) >= p - Times(eps, slip)
  {
    MulMono(eps, p - slip, q);
  }

  /** Against the modelled opponent, blending in the best reply never costs more than
      eps times the tie tolerance, whatever mix is blended. */
  lemma BlendAgainstModel(gto: Vec, probs: Vec, eps: real, myKi: int, oppKi: int, turn: int, lam: real, next: ValueFn)
    requires 0 <= myKi && 0 <= oppKi && MixFor(probs, oppKi) && LegalVector(gto, myKi) && 0.0 <= eps <= 1.0
    ensures var u := Earnings(probs, myKi, oppKi, turn, lam, next);
      && u != []
      && LegalVector(Spread(BestMix(u), myKi), myKi)
      && Dot(Restrict(Blend(gto, Spread(BestMix(u), myKi), eps), myKi), u)
        >= Dot(Restrict(gto, myKi), u) - Times(eps, TIE)
  {
    hide Dot, Earnings, BestMix, Restrict, Spread, Blend, Times;
    ActionAt(myKi, 0) by { AffordableCases(myKi); }
    var u, x := Earnings(probs, myKi, oppKi, turn, lam, next), Restrict(gto, myKi);
    var b := BestMix(u);
    RestrictSimplex(gto, myKi);
    BestMixOptimal(u, x);
    SpreadLegal(b, myKi);
    RestrictSpread(b, myKi);
    RestrictBlend(gto, Spread(b, myKi), eps, myKi);
    BlendEarns(x, b, u, eps);
    TimesShare(eps, Dot(x, u), Dot(b, u), TIE);
  }

  // ----- the weight of the blend -----

  const BASE_EPS := 0.05
  const BIAS_GAIN := 0.8
  const EPS_MAX := 0.85

  /** The blend weight from the turns seen, my and the opponent's round wins, and how
      predictable the opponent looks. */
  function EpsFor(turns: nat, mine: int, theirs: int, bias: real): real {
    var confidence := if turns as real / 3.0 < 1.0 then turns as real / 3.0 else 1.0;
    var standing := if mine < theirs then 0.1 else if mine > theirs then -0.1 else 0.0;
    var matchPoint := if mine >= ROUNDS_TO_WIN - 1 || theirs >= ROUNDS_TO_WIN - 1 then 0.05 else 0.0;
    var eps := BASE_EPS + BIAS_GAIN * Times(bias, confidence) + standing - matchPoint;
    if eps < 0.0 then 0.0 else if eps > EPS_MAX then EPS_MAX else eps
  }

  method AdaptiveEps(history: seq<TurnResult>, gs: GameState, bias: real) returns (eps: real)
    ensures eps == EpsFor(|history|, gs.wonP2, gs.wonP1, bias)
    ensures 0.0 <= eps <= EPS_MAX
  {
    var n := |history|;
    var confidence := if n as real / 3.0 < 1.0 then n as real / 3.0 else 1.0;
    eps := BASE_EPS + BIAS_GAIN * Times(bias, confidence);
    var myRounds, oppRounds := gs.wonP2, gs.wonP1;
    if myRounds < oppRounds {
      eps := eps + 0.1;
    } else if myRounds > oppRounds {
      eps := eps - 0.1;
    }
    if myRounds >= ROUNDS_TO_WIN - 1 || oppRounds >= ROUNDS_TO_WIN - 1 {
      eps := eps - 0.05;
    }
    if eps < 0.0 {
      return 0.0;
    }
    if eps > EPS_MAX {
      return EPS_MAX;
    }
  }

  /** Between 0 and the cap. */
  function WithinCap(eps: real): real {
    if eps < 0.0 then 0.0 else if eps > 0.85 then 0.85 else eps
  }

  /** The weight at every score before a round, in numbers: 0.05, and 0.8 of the bias
      scaled by a third for each of the first three turns; 0.1 more for the trailer and
      0.1 less for the leader, and 0.05 less as soon as anybody has a round. */
  lemma EpsByScore(turns: nat, bias: real)
    ensures var gain := 0.8 * (if turns >= 3 then bias else bias * turns as real / 3.0);
      && EpsFor(turns, 0, 0, bias) == WithinCap(0.05 + gain)
      && EpsFor(turns, 0, 1, bias) == WithinCap(0.1 + gain)
      && EpsFor(turns, 1, 0, bias) == WithinCap(-0.1 + gain)
      && EpsFor(turns, 1, 1, bias) == WithinCap(0.0 + gain)
  {
    var part := if turns >= 3 then bias else bias * turns as real / 3.0;
    if turns < 3 {
      assert Times(bias, turns as real / 3.0) == part;
    } else {
      TimesOne(bias);
    }
    assert turns as real / 3.0 < 1.0 <==> turns < 3;
    hide Times;
  }

  /** The weight never shrinks when the opponent looks more predictable or has been
      seen longer, is never larger for the leader than for the trailer, and against
      an unpredictable opponent stays at or below 0.15. */
  lemma EpsMonotone(turns: nat, turns': nat, mine: int, theirs: int, bias: real, bias': real)
    requires turns <= turns' && 0.0 <= bias <= bias' <= 1.0
    ensures EpsFor(turns, mine, theirs, bias) <= EpsFor(turns', mine, theirs, bias')
    ensures mine >= theirs ==> EpsFor(turns, mine, theirs, bias) <= EpsFor(turns', theirs, mine, bias')
    ensures EpsFor(turns, mine, theirs, 0.0) <= 0.15
  {
    var c := if turns as real / 3.0 < 1.0 then turns as real / 3.0 else 1.0;
    var c' := if turns' as real / 3.0 < 1.0 then turns' as real / 3.0 else 1.0;
    TimesBoth(bias, bias', c, c');
    assert Times(0.0, c) == 0.0;
    hide Times;
  }

  /** The most the weight can be at a turn, for a score, whatever the opponent does. */
  function EpsCap(turn: int, mine: int, theirs: int): real {
    EpsFor(if turn < 1 then 0 else turn - 1, mine, theirs, 1.0)
  }

  /** The caps are small on the first turn and below one always. */
  lemma EpsCapValues(turn: int, mine: int, theirs: int)
    ensures 0.0 <= EpsCap(turn, mine, theirs) <= EPS_MAX
    ensures turn <= 1 ==> EpsCap(turn, mine, theirs) <= 0.15
    ensures mine > theirs >= 0 ==> EpsCap(turn, mine, theirs) <= 0.7
  {
    if turn >= 1 {
      var n := (turn - 1) as real / 3.0;
      assert Times(1.0, n) == n;
    }
    assert Times(1.0, 1.0) == 1.0 && Times(1.0, 0.0) == 0.0;
  }

  // ----- the noise floor -----

  const NOISE := 0.02

  /** How often an action is listed. */
  function Listed(a: Action, affordable: seq<Action>): real {
    if affordable == [] then 0.0
    else
      var n := |affordable| - 1;
      Listed(a, affordable[..n]) + (if affordable[n] == a then 1.0 else 0.0)
  }

  /** Every listed action raised by the floor, once per mention, the rest scaled down
      to make room. */
  function Raised(dist: Vec, affordable: seq<Action>): (r: Vec)
    requires |dist| == 5
    ensures |r| == 5
  {
    var total := NOISE * |affordable| as real;
    var scale := 1.0 - (if total < 0.5 then total else 0.5);
    seq(5, i requires 0 <= i < 5 => Times(scale, dist[i]) + NOISE * Listed(ACTION_ORDER[i], affordable))
  }

  function UniformOver(affordable: seq<Action>): Vec
    requires affordable != []
  {
    seq(5, i requires 0 <= i < 5 => if ACTION_ORDER[i] in affordable then 1.0 / |affordable| as real else 0.0)
  }

  function Noised(dist: Vec, affordable: seq<Action>): (r: Vec)
    requires |dist| == 5
    ensures |r| == 5
  {
    if affordable == [] then dist
    else
      var out := Raised(dist, affordable);
      if Sum(out) <= 0.0 then UniformOver(affordable) else Scale(1.0 / Sum(out), out)
  }

  lemma ListedSnoc(affordable: seq<Action>, k: nat, a: Action)
    requires k < |affordable|
    ensures Listed(a, affordable[..k + 1]) == Listed(a, affordable[..k]) + (if a == affordable[k] then 1.0 else 0.0)
  {
    assert affordable[..k + 1][..k] == affordable[..k];
  }

  lemma IndexOf(i: nat)
    requires i < 5
    ensures ActionIndex(ACTION_ORDER[i]) == i
  {}

  /** Scales the distribution down and adds the floor at every listed action. */
  method Raise(dist: Vec, affordable: seq<Action>) returns (out: Vec)
    requires |dist| == 5
    ensures out == Raised(dist, affordable)
  {
    hide Times, Listed, ActionIndex;
    var n := |affordable|;
    var floorTotal := if NOISE * n as real < 0.5 then NOISE * n as real else 0.5;
    var scale := 1.0 - floorTotal;
    var slots := new real[5](i requires 0 <= i < 5 => Times(scale, dist[i]));
    NothingListed();
    for k := 0 to n
      invariant forall i :: 0 <= i < 5 ==>
        slots[i] == Times(scale, dist[i]) + NOISE * Listed(ACTION_ORDER[i], affordable[..k])
    {
      var slot := ActionIndex(affordable[k]);
      SlotOf(affordable[k]);
      forall i | 0 <= i < 5
        ensures Listed(ACTION_ORDER[i], affordable[..k + 1])
             == Listed(ACTION_ORDER[i], affordable[..k]) + (if i == slot then 1.0 else 0.0)
      {
        ListedSnoc(affordable, k, ACTION_ORDER[i]);
        IndexOf(i);
      }
      slots[slot] := slots[slot] + NOISE;
    }
    assert affordable[..n] == affordable;
    return slots[..];
  }

  lemma NothingListed()
    ensures forall a :: Listed(a, []) == 0.0
  {}

  lemma SlotOf(a: Action)
    ensures ActionIndex(a) < 5 && ACTION_ORDER[ActionIndex(a)] == a
  {}

  /** The degenerate case: equal shares for the listed actions. */
  method Flatten(affordable: seq<Action>) returns (out: Vec)
    requires affordable != []
    ensures out == UniformOver(affordable)
  {
    var slots := new real[5](_ => 0.0);
    for k := 0 to |affordable|
      invariant forall i :: 0 <= i < 5 ==>
        slots[i] == if ACTION_ORDER[i] in affordable[..k] then 1.0 / |affordable| as real else 0.0
    {
      assert affordable[..k + 1] == affordable[..k] + [affordable[k]];
      forall i | 0 <= i < 5 ensures ActionIndex(ACTION_ORDER[i]) == i { IndexOf(i); }
      slots[ActionIndex(affordable[k])] := 1.0 / |affordable| as real;
    }
    assert affordable[..|affordable|] == affordable;
    return slots[..];
  }

  method AddNoise(dist: Vec, affordable: seq<Action>) returns (out: Vec)
    requires |dist| == 5
    ensures out == Noised(dist, affordable)
  {
    hide Sum, Raised, Scale;
    if |affordable| == 0 {
      return dist;
    }
    out := Raise(dist, affordable);
    var total := Sum(out);
    if total <= 0.0 {
      out := Flatten(affordable);
    } else {
      out := Scale(1.0 / total, out);
    }
  }

  /** The share of the distribution that the noise leaves in place. */
  function NoiseShare(ki: int): real {
    1.0 - NOISE * |AffordableActions(ki)| as real
  }

  lemma NoiseShareRange(ki: int)
    requires 0 <= ki
    ensures 0.9 <= NoiseShare(ki) <= 0.96
  {
    AffordableCases(ki);
  }

  lemma {:induction false} DistinctListed(xs: seq<Action>, a: Action)
    requires Distinct(xs)
    ensures Listed(a, xs) == if a in xs then 1.0 else 0.0
  {
    if xs != [] {
      var n := |xs| - 1;
      DistinctListed(xs[..n], a);
      assert a in xs <==> a in xs[..n] || a == xs[n];
    }
  }

  lemma {:induction false} ListedTotal(xs: seq<Action>)
    ensures Listed(Charge, xs) + Listed(Block, xs) + Listed(Attack, xs) + Listed(EnergyWave, xs) + Listed(Teleport, xs)
         == |xs| as real
  {
    if xs != [] {
      ListedTotal(xs[..|xs| - 1]);
    }
  }

  /** Whatever vector is given, noise over a list of different actions gives total mass one;
      where nothing is left to rescale, equal shares for the listed actions. */
  lemma NoiseFallback(dist: Vec, affordable: seq<Action>)
    requires |dist| == 5 && affordable != [] && Distinct(affordable)
    ensures Sum(Noised(dist, affordable)) == 1.0
    ensures Sum(Raised(dist, affordable)) <= 0.0 ==> forall i :: 0 <= i < 5 ==>
      Noised(dist, affordable)[i] == if ACTION_ORDER[i] in affordable then 1.0 / |affordable| as real else 0.0
  {
    hide Raised, Sum, UniformOver, Scale;
    var out := Raised(dist, affordable);
    if Sum(out) <= 0.0 {
      UniformMass(affordable);
      UniformEntries(affordable);
    } else {
      SumScale(1.0 / Sum(out), out);
    }
  }

  lemma UniformEntries(affordable: seq<Action>)
    requires affordable != []
    ensures |UniformOver(affordable)| == 5
    ensures forall i :: 0 <= i < 5 ==>
      UniformOver(affordable)[i] == if ACTION_ORDER[i] in affordable then 1.0 / |affordable| as real else 0.0
  {}

  lemma UniformSlots(affordable: seq<Action>, part: real)
    requires affordable != [] && Distinct(affordable) && part == 1.0 / |affordable| as real
    ensures var v := UniformOver(affordable);
      && |v| == 5
      && v[0] == Times(part, Listed(Charge, affordable)) && v[1] == Times(part, Listed(Block, affordable))
      && v[2] == Times(part, Listed(Attack, affordable)) && v[3] == Times(part, Listed(EnergyWave, affordable))
      && v[4] == Times(part, Listed(Teleport, affordable))
  {
    hide Listed, Distinct, UniformOver, Times;
    UniformEntries(affordable);
    UniformEntry(affordable, part, Charge);
    UniformEntry(affordable, part, Block);
    UniformEntry(affordable, part, Attack);
    UniformEntry(affordable, part, EnergyWave);
    UniformEntry(affordable, part, Teleport);
    assert ACTION_ORDER[0] == Charge && ACTION_ORDER[1] == Block && ACTION_ORDER[2] == Attack;
    assert ACTION_ORDER[3] == EnergyWave && ACTION_ORDER[4] == Teleport;
  }

  lemma UniformEntry(affordable: seq<Action>, part: real, a: Action)
    requires Distinct(affordable)
    ensures Times(part, Listed(a, affordable)) == if a in affordable then part else 0.0
  {
    DistinctListed(affordable, a);
  }

  lemma UniformMass(affordable: seq<Action>)
    requires affordable != [] && Distinct(affordable)
    ensures Sum(UniformOver(affordable)) == 1.0
  {
    hide Listed, Sum, UniformOver, Distinct, Times;
    var part := 1.0 / |affordable| as real;
    UniformSlots(affordable, part);
    SumFive(UniformOver(affordable));
    ListedTotal(affordable);
    WholeOf(|affordable| as real, Listed(Charge, affordable), Listed(Block, affordable), Listed(Attack, affordable),
            Listed(EnergyWave, affordable), Listed(Teleport, affordable));
  }

  lemma WholeOf(n: real, a: real, b: real, c: real, d: real, e: real)
    requires n > 0.0 && a + b + c + d + e == n
    ensures var part := 1.0 / n;
      Times(part, a) + Times(part, b) + Times(part, c) + Times(part, d) + Times(part, e) == 1.0
  {
    var part := 1.0 / n;
    assert part * n == 1.0;
    assert part * (a + b + c + d + e) == part * a + part * b + part * c + part * d + part * e;
  }

  /** The affordable list mentions exactly the affordable actions, each once. */
  lemma ListedOnce(ki: int, a: Action)
    requires 0 <= ki
    ensures Listed(a, AffordableActions(ki)) == if Affordable(a, ki) then 1.0 else 0.0
  {
    hide Affordable, AffordableActions, Position;
    var actions := AffordableActions(ki);
    forall i, j | 0 <= i < j < |actions| ensures actions[i] != actions[j] {
      ActionAt(ki, i);
      ActionAt(ki, j);
    }
    DistinctListed(actions, a);
    if Affordable(a, ki) {
      PositionOf(a, ki);
    } else if a in actions {
      var i :| 0 <= i < |actions| && actions[i] == a;
      ActionAt(ki, i);
    }
  }

  lemma RaisedAt(dist: Vec, ki: int, i: nat)
    requires 0 <= ki && |dist| == 5 && i < 5
    ensures Raised(dist, AffordableActions(ki))[i]
         == Times(NoiseShare(ki), dist[i]) + (if Affordable(ACTION_ORDER[i], ki) then NOISE else 0.0)
  {
    hide Times, Listed, AffordableActions;
    ListedOnce(ki, ACTION_ORDER[i]);
    ActionAt(ki, 0) by { AffordableCases(ki); }
  }

  /** On a distribution over the affordable actions the noise gives a distribution
      again, in which every affordable action has at least the floor and every
      action keeps the same share of what it had. */
  lemma NoiseOnLegal(dist: Vec, ki: int)
    requires 0 <= ki && LegalVector(dist, ki)
    ensures var out := Noised(dist, AffordableActions(ki));
      && LegalVector(out, ki)
      && (forall i :: 0 <= i < 5 && Affordable(ACTION_ORDER[i], ki) ==> out[i] >= NOISE)
      && Covers(out, dist, NoiseShare(ki))
    ensures 0.9 <= NoiseShare(ki) <= 0.96
  {
    hide Sum, Raised, NoiseShare, Times, AffordableActions;
    var out, c := Raised(dist, AffordableActions(ki)), NoiseShare(ki);
    NoiseShareRange(ki);
    RaisedMass(dist, ki);
    NoisedIsRaised(dist, ki);
    forall i | 0 <= i < 5
      ensures out[i] >= Scale(c, dist)[i] >= 0.0
      ensures out[i] == Scale(c, dist)[i] + (if Affordable(ACTION_ORDER[i], ki) then NOISE else 0.0)
    {
      RaisedAt(dist, ki, i);
      KeptEntry(c, dist, i);
    }
    forall i | 0 <= i < 5 && !Affordable(ACTION_ORDER[i], ki) ensures out[i] == 0.0 {
      ScaledZero(c, dist, i);
    }
  }

  /** Entry by entry: a legal vector is scaled down by 0.02 for each of the n affordable
      actions, and each of these gets 0.02. */
  lemma NoisedAt(dist: Vec, ki: int, i: nat)
    requires 0 <= ki && LegalVector(dist, ki) && i < 5
    ensures Noised(dist, AffordableActions(ki))[i]
         == Times(1.0 - 0.02 * |AffordableActions(ki)| as real, dist[i])
            + (if Affordable(ACTION_ORDER[i], ki) then 0.02 else 0.0)
  {
    hide Sum, Raised, Noised, Times, AffordableActions;
    RaisedMass(dist, ki);
    NoisedIsRaised(dist, ki);
    RaisedAt(dist, ki, i);
  }

  lemma KeptEntry(c: real, x: Vec, i: nat)
    requires 0.0 <= c && i < |x| && x[i] >= 0.0
    ensures Scale(c, x)[i] == Times(c, x[i]) >= 0.0
  {
    ScaledAt(c, x, i);
    MulNonNeg(c, x[i]);
  }

  lemma ScaledZero(c: real, x: Vec, i: nat)
    requires i < |x| && x[i] == 0.0
    ensures Scale(c, x)[i] == 0.0
  {}

  lemma NoisedIsRaised(dist: Vec, ki: int)
    requires 0 <= ki && LegalVector(dist, ki) && Sum(Raised(dist, AffordableActions(ki))) == 1.0
    ensures Noised(dist, AffordableActions(ki)) == Raised(dist, AffordableActions(ki))
  {
    AffordableCases(ki);
    var out := Raised(dist, AffordableActions(ki));
    assert Scale(1.0, out) == out by { ScaleByOne(out); }
    hide Sum, Raised;
  }

  lemma ScaleByOne(x: Vec)
    ensures Scale(1.0, x) == x
  {}

  lemma RaisedMass(dist: Vec, ki: int)
    requires 0 <= ki && LegalVector(dist, ki)
    ensures Sum(Raised(dist, AffordableActions(ki))) == 1.0
  {
    hide Sum, Scale, Raised, NoiseAt, NoiseShare;
    var out, kept := Raised(dist, AffordableActions(ki)), Scale(NoiseShare(ki), dist);
    forall i | 0 <= i < 5 ensures out[i] == kept[i] + NoiseAt(i, ki) {
      RaisedSplit(dist, ki, i);
    }
    SumFive(out);
    SumFive(kept);
    KeptMass(dist, NoiseShare(ki));
    NoiseMass(ki);
  }

  lemma RaisedSplit(dist: Vec, ki: int, i: nat)
    requires 0 <= ki && LegalVector(dist, ki) && i < 5
    ensures Raised(dist, AffordableActions(ki))[i] == Scale(NoiseShare(ki), dist)[i] + NoiseAt(i, ki)
  {
    hide Scale, Times, Raised, NoiseShare;
    RaisedAt(dist, ki, i);
    NoiseShareRange(ki);
    KeptEntry(NoiseShare(ki), dist, i);
  }

  lemma KeptMass(dist: Vec, c: real)
    requires Sum(dist) == 1.0
    ensures Sum(Scale(c, dist)) == c
  {
    hide Sum, Scale;
    SumScale(c, dist);
  }

  function NoiseAt(i: nat, ki: int): real
    requires i < 5
  {
    if Affordable(ACTION_ORDER[i], ki) then NOISE else 0.0
  }

  lemma NoiseMass(ki: int)
    requires 0 <= ki
    ensures NoiseAt(0, ki) + NoiseAt(1, ki) + NoiseAt(2, ki) + NoiseAt(3, ki) + NoiseAt(4, ki) + NoiseShare(ki) == 1.0
  {
    AffordableCases(ki);
  }
}
