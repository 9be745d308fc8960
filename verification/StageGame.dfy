/** One turn of a round as a matrix game for the acting player. */
module StageGame {
  import opened GameRules
  import opened Vectors
  import opened MatrixGame

  const ACTION_ORDER: seq<Action> := [Charge, Block, Attack, EnergyWave, Teleport]

  function ActionIndex(a: Action): nat {
    match a
    case Charge => 0
    case Block => 1
    case Attack => 2
    case EnergyWave => 3
    case Teleport => 4
  }

  function Filtered(actions: seq<Action>, ki: int): seq<Action> {
    if actions == [] then []
    else (if Affordable(actions[0], ki) then [actions[0]] else []) + Filtered(actions[1..], ki)
  }

  /** The affordable actions, in the canonical order. */
  function AffordableActions(ki: int): seq<Action> {
    Filtered(ACTION_ORDER, ki)
  }

  predicate KiRange(ki: int) {
    0 <= ki <= KI_CAP
  }

  lemma AffordableCases(ki: int)
    requires 0 <= ki
    ensures AffordableActions(ki) ==
      if ki == 0 then [Charge, Block]
      else if ki < 3 then [Charge, Block, Attack, Teleport]
      else ACTION_ORDER
  {
    var s := ACTION_ORDER;
    assert s[1..] == [Block, Attack, EnergyWave, Teleport];
    assert s[1..][1..] == [Attack, EnergyWave, Teleport];
    assert s[1..][1..][1..] == [EnergyWave, Teleport];
    assert s[1..][1..][1..][1..] == [Teleport];
    assert s[1..][1..][1..][1..][1..] == [];
    assert Filtered([Teleport], ki) == if ki >= 1 then [Teleport] else [];
    assert Filtered([EnergyWave, Teleport], ki) ==
      if ki >= 3 then [EnergyWave, Teleport] else if ki >= 1 then [Teleport] else [];
    assert Filtered([Attack, EnergyWave, Teleport], ki)
        == if ki >= 3 then [Attack, EnergyWave, Teleport] else if ki >= 1 then [Attack, Teleport] else [];
    assert Filtered([Block, Attack, EnergyWave, Teleport], ki)
        == if ki >= 3 then [Block, Attack, EnergyWave, Teleport]
           else if ki >= 1 then [Block, Attack, Teleport] else [Block];
  }

  /** Where an affordable action stands in the affordable list. */
  function Position(a: Action, ki: int): nat
    requires 0 <= ki && Affordable(a, ki)
  {
    if a == Teleport && ki < 3 then 3 else ActionIndex(a)
  }

  lemma PositionOf(a: Action, ki: int)
    requires 0 <= ki && Affordable(a, ki)
    ensures Position(a, ki) < |AffordableActions(ki)| && AffordableActions(ki)[Position(a, ki)] == a
  {
    AffordableCases(ki);
  }

  lemma ActionAt(ki: int, k: nat)
    requires 0 <= ki && k < |AffordableActions(ki)|
    ensures var a := AffordableActions(ki)[k]; Affordable(a, ki) && Position(a, ki) == k
    ensures 2 <= |AffordableActions(ki)| <= 5
  {
    AffordableCases(ki);
  }

  /** +1 if I win the round this turn, -1 if I lose it, 0 if it goes on. */
  function ImmediateOutcome(me: Action, opp: Action): int {
    match Resolve(me, opp)
    case P1WinsRound => 1
    case P2WinsRound => -1
    case _ => 0
  }

  /** What a round is worth to me: won, drawn, lost. */
  datatype Leaves = Leaves(win: real, draw: real, loss: real)

  /** Normalized leaves with draw weight lam. */
  function LamLeaves(lam: real): Leaves {
    Leaves(1.0, lam, 0.0)
  }

  type ValueFn = (int, int, int) -> real

  function StagePayoff(me: Action, opp: Action, myKi: int, oppKi: int, turn: int, w: Leaves, next: ValueFn): real {
    var oc := ImmediateOutcome(me, opp);
    if oc == 1 then w.win
    else if oc == -1 then w.loss
    else
      var myNext, oppNext := KiAfter(me, myKi), KiAfter(opp, oppKi);
      if turn >= TURN_LIMIT then
        if myNext > oppNext then w.win
        else if myNext < oppNext then w.loss
        else w.draw
      else next(myNext, oppNext, turn + 1)
  }

  /** Payoffs over both players' affordable actions. */
  function StageMatrix(myKi: int, oppKi: int, turn: int, w: Leaves, next: ValueFn): (r: Mat)
    ensures Shape(r, |AffordableActions(myKi)|, |AffordableActions(oppKi)|)
  {
    var rows, cols := AffordableActions(myKi), AffordableActions(oppKi);
    seq(|rows|, i requires 0 <= i < |rows| =>
      seq(|cols|, j requires 0 <= j < |cols| => StagePayoff(rows[i], cols[j], myKi, oppKi, turn, w, next)))
  }

  lemma StageShape(myKi: int, oppKi: int, turn: int, w: Leaves, next: ValueFn)
    requires 0 <= myKi && 0 <= oppKi
    ensures Game(StageMatrix(myKi, oppKi, turn, w, next), |AffordableActions(myKi)|, |AffordableActions(oppKi)|)
  {
    AffordableCases(myKi);
    AffordableCases(oppKi);
  }

  /** The number of turns left in the round decides how deep a payoff looks: only
      values of the next turn at ki in range are ever read. */
  ghost predicate SameLayer(f: ValueFn, g: ValueFn, turn: int) {
    forall a, b :: KiRange(a) && KiRange(b) ==> f(a, b, turn) == g(a, b, turn)
  }

  /** What is at stake between winning and losing. */
  function Span(w: Leaves): real {
    w.win - w.loss
  }

  /** A normalized payoff expressed in the units of the given leaves. */
  function InUnits(w: Leaves, p: real): real {
    w.loss + Span(w) * p
  }

  ghost predicate MirrorLayer(f: ValueFn, g: ValueFn, turn: int) {
    forall a, b :: KiRange(a) && KiRange(b) ==> g(b, a, turn) == 1.0 - f(a, b, turn)
  }

  ghost predicate AffineLayer(f: ValueFn, g: ValueFn, w: Leaves, turn: int) {
    forall a, b :: KiRange(a) && KiRange(b) ==> g(a, b, turn) == InUnits(w, f(a, b, turn))
  }

  ghost predicate UnitLayer(f: ValueFn, turn: int) {
    forall a, b :: KiRange(a) && KiRange(b) ==> 0.0 <= f(a, b, turn) <= 1.0
  }

  lemma StageReadsNextLayer(myKi: int, oppKi: int, turn: int, w: Leaves, f: ValueFn, g: ValueFn)
    requires turn < TURN_LIMIT ==> SameLayer(f, g, turn + 1)
    ensures StageMatrix(myKi, oppKi, turn, w, f) == StageMatrix(myKi, oppKi, turn, w, g)
  {
    var rows, cols := AffordableActions(myKi), AffordableActions(oppKi);
    forall i, j | 0 <= i < |rows| && 0 <= j < |cols|
      ensures StagePayoff(rows[i], cols[j], myKi, oppKi, turn, w, f)
           == StagePayoff(rows[i], cols[j], myKi, oppKi, turn, w, g)
    {}
    forall i | 0 <= i < |rows|
      ensures StageMatrix(myKi, oppKi, turn, w, f)[i] == StageMatrix(myKi, oppKi, turn, w, g)[i]
    {}
  }

  /** The opponent's stage matrix, with complementary leaves and complementary
      continuation values, is the complement of mine. */
  lemma StageMirror(myKi: int, oppKi: int, turn: int, lam: real, f: ValueFn, g: ValueFn)
    requires 0 <= myKi && 0 <= oppKi
    requires turn < TURN_LIMIT ==> MirrorLayer(f, g, turn + 1)
    ensures var m := StageMatrix(myKi, oppKi, turn, LamLeaves(lam), f);
      && Shape(m, |AffordableActions(myKi)|, |AffordableActions(oppKi)|)
      && StageMatrix(oppKi, myKi, turn, LamLeaves(1.0 - lam), g) == Complement(m, |AffordableActions(oppKi)|)
  {
    var rows, cols := AffordableActions(myKi), AffordableActions(oppKi);
    var m := StageMatrix(myKi, oppKi, turn, LamLeaves(lam), f);
    var m' := StageMatrix(oppKi, myKi, turn, LamLeaves(1.0 - lam), g);
    StageShape(myKi, oppKi, turn, LamLeaves(lam), f);
    ComplementEntry(m, |rows|, |cols|);
    forall j | 0 <= j < |cols| ensures m'[j] == Complement(m, |cols|)[j] {
      forall i | 0 <= i < |rows| ensures m'[j][i] == Complement(m, |cols|)[j][i] {
        PayoffMirror(rows[i], cols[j], myKi, oppKi, turn, lam, f, g);
      }
    }
  }

  lemma PayoffMirror(me: Action, opp: Action, myKi: int, oppKi: int, turn: int, lam: real, f: ValueFn, g: ValueFn)
    requires turn < TURN_LIMIT ==> MirrorLayer(f, g, turn + 1)
    ensures StagePayoff(opp, me, oppKi, myKi, turn, LamLeaves(1.0 - lam), g)
         == 1.0 - StagePayoff(me, opp, myKi, oppKi, turn, LamLeaves(lam), f)
  {
    assert ImmediateOutcome(opp, me) == -ImmediateOutcome(me, opp);
    var a, b := KiAfter(me, myKi), KiAfter(opp, oppKi);
    assert KiRange(a) && KiRange(b);
    assert turn < TURN_LIMIT ==> g(b, a, turn + 1) == 1.0 - f(a, b, turn + 1);
  }

  /** Raw leaves W/D/L with D = L + (W - L) lam, and continuation values moved by
      the same change of units, give the lam-game's matrix in those units. */
  lemma StageAffine(myKi: int, oppKi: int, turn: int, w: Leaves, lam: real, f: ValueFn, g: ValueFn)
    requires w.draw == InUnits(w, lam)
    requires turn < TURN_LIMIT ==> AffineLayer(f, g, w, turn + 1)
    ensures StageMatrix(myKi, oppKi, turn, w, g)
         == AffineMat(StageMatrix(myKi, oppKi, turn, LamLeaves(lam), f), w.loss, Span(w))
  {
    var rows, cols := AffordableActions(myKi), AffordableActions(oppKi);
    var m := StageMatrix(myKi, oppKi, turn, LamLeaves(lam), f);
    var b := StageMatrix(myKi, oppKi, turn, w, g);
    var c := AffineMat(m, w.loss, Span(w));
    forall i | 0 <= i < |rows| ensures b[i] == c[i] {
      forall j | 0 <= j < |cols| ensures b[i][j] == c[i][j] {
        AffineAt(m, i, j, w);
        hide InUnits, StagePayoff, AffineMat;
        PayoffAffine(rows[i], cols[j], myKi, oppKi, turn, w, lam, f, g);
      }
    }
  }

  lemma AffineAt(m: Mat, i: nat, j: nat, w: Leaves)
    requires i < |m| && j < |m[i]|
    ensures |AffineMat(m, w.loss, Span(w))[i]| == |m[i]|
    ensures AffineMat(m, w.loss, Span(w))[i][j] == InUnits(w, m[i][j])
  {
    var unit := Span(w);
    assert Scale(unit, m[i])[j] == unit * m[i][j];
  }

  lemma PayoffAffine(me: Action, opp: Action, myKi: int, oppKi: int, turn: int, w: Leaves, lam: real, f: ValueFn,
                     g: ValueFn)
    requires w.draw == InUnits(w, lam)
    requires turn < TURN_LIMIT ==> AffineLayer(f, g, w, turn + 1)
    ensures StagePayoff(me, opp, myKi, oppKi, turn, w, g)
         == InUnits(w, StagePayoff(me, opp, myKi, oppKi, turn, LamLeaves(lam), f))
  {
    assert InUnits(w, 1.0) == w.win && InUnits(w, 0.0) == w.loss;
    hide InUnits;
    var a, b := KiAfter(me, myKi), KiAfter(opp, oppKi);
    assert KiRange(a) && KiRange(b);
    assert turn < TURN_LIMIT ==> g(a, b, turn + 1) == InUnits(w, f(a, b, turn + 1));
  }

  /** With values in [0, 1] ahead, every stage payoff is in [0, 1]. */
  lemma StageRange(myKi: int, oppKi: int, turn: int, lam: real, f: ValueFn)
    requires 0 <= myKi && 0 <= oppKi && 0.0 <= lam <= 1.0
    requires turn < TURN_LIMIT ==> UnitLayer(f, turn + 1)
    ensures var n, m := |AffordableActions(myKi)|, |AffordableActions(oppKi)|;
      var a := StageMatrix(myKi, oppKi, turn, LamLeaves(lam), f);
      Game(a, n, m) && EntriesWithin(a, n, m, 0.0, 1.0)
  {
    var rows, cols := AffordableActions(myKi), AffordableActions(oppKi);
    StageShape(myKi, oppKi, turn, LamLeaves(lam), f);
    forall i, j | 0 <= i < |rows| && 0 <= j < |cols|
      ensures 0.0 <= StagePayoff(rows[i], cols[j], myKi, oppKi, turn, LamLeaves(lam), f) <= 1.0
    {
      var a, b := KiAfter(rows[i], myKi), KiAfter(cols[j], oppKi);
      assert KiRange(a) && KiRange(b);
    }
  }

  // ----- length-five vectors over ACTION_ORDER -----

  /** A mix over the affordable list, written as a vector over all five actions. */
  function Spread(x: Vec, ki: int): (r: Vec)
    requires 0 <= ki && |x| == |AffordableActions(ki)|
    ensures |r| == 5
  {
    seq(5, i requires 0 <= i < 5 =>
      var a := ACTION_ORDER[i];
      if Affordable(a, ki) then (PositionOf(a, ki); x[Position(a, ki)]) else 0.0)
  }

  /** The affordable part of a vector over all five actions. */
  function Restrict(v: Vec, ki: int): (r: Vec)
    requires |v| == 5
    ensures |r| == |AffordableActions(ki)|
  {
    var rows := AffordableActions(ki);
    seq(|rows|, k requires 0 <= k < |rows| => v[ActionIndex(rows[k])])
  }

  /** No mass on unaffordable actions, total mass one. */
  ghost predicate LegalVector(v: Vec, ki: int) {
    && |v| == 5 && Simplex(v)
    && forall i :: 0 <= i < 5 && !Affordable(ACTION_ORDER[i], ki) ==> v[i] == 0.0
  }

  lemma RestrictSpread(x: Vec, ki: int)
    requires 0 <= ki && |x| == |AffordableActions(ki)|
    ensures Restrict(Spread(x, ki), ki) == x
  {
    var rows := AffordableActions(ki);
    forall k | 0 <= k < |rows| ensures Restrict(Spread(x, ki), ki)[k] == x[k] {
      ActionAt(ki, k);
      assert ACTION_ORDER[ActionIndex(rows[k])] == rows[k];
    }
  }

  lemma SumFive(v: Vec)
    requires |v| == 5
    ensures Sum(v) == v[0] + v[1] + v[2] + v[3] + v[4]
  {
    assert v[1..][1..] == v[2..] && v[2..][1..] == v[3..] && v[3..][1..] == v[4..] && v[4..][1..] == [];
    assert Sum(v[4..]) == v[4] && Sum(v[3..]) == v[3] + Sum(v[4..]);
    assert Sum(v[2..]) == v[2] + Sum(v[3..]) && Sum(v[1..]) == v[1] + Sum(v[2..]);
  }

  lemma SumTwo(v: Vec)
    requires |v| == 2
    ensures Sum(v) == v[0] + v[1]
  {
    assert v[1..][1..] == [];
    assert Sum(v[1..]) == v[1];
  }

  lemma SumFour(v: Vec)
    requires |v| == 4
    ensures Sum(v) == v[0] + v[1] + v[2] + v[3]
  {
    assert v[1..][1..] == v[2..] && v[2..][1..] == v[3..] && v[3..][1..] == [];
    assert Sum(v[3..]) == v[3] && Sum(v[2..]) == v[2] + Sum(v[3..]);
  }

  /** Spreading a mix keeps it a mix, and restricting a legal vector gives one back. */
  lemma SpreadLegal(x: Vec, ki: int)
    requires 0 <= ki && |x| == |AffordableActions(ki)| && Simplex(x)
    ensures LegalVector(Spread(x, ki), ki)
  {
    var v := Spread(x, ki);
    AffordableCases(ki);
    SumFive(v);
    if ki == 0 { SumTwo(x); } else if ki < 3 { SumFour(x); } else { SumFive(x); }
    assert v[0] == x[0] && v[1] == x[1];
  }

  lemma RestrictSimplex(v: Vec, ki: int)
    requires 0 <= ki && LegalVector(v, ki)
    ensures Simplex(Restrict(v, ki))
  {
    var x := Restrict(v, ki);
    AffordableCases(ki);
    SumFive(v);
    if ki == 0 {
      SumTwo(x);
      assert !Affordable(ACTION_ORDER[2], ki) && !Affordable(ACTION_ORDER[3], ki) && !Affordable(ACTION_ORDER[4], ki);
    } else if ki < 3 {
      SumFour(x);
      assert !Affordable(ACTION_ORDER[3], ki);
    } else {
      SumFive(x);
    }
  }
}
