/** The last two turns of a round whose draw is worth one half, solved exactly where
    both players can pay for everything. */
module LateTurns {
  import opened GameRules
  import opened Vectors
  import opened MatrixGame
  import opened ZeroSum
  import opened StageGame
  import opened RoundSolver

  const HALF := LamLeaves(0.5)

  // ----- games over five actions -----

  lemma Dot5(x: Vec, y: Vec)
    requires |x| == |y| == 5
    ensures Dot(x, y) == x[0] * y[0] + x[1] * y[1] + x[2] * y[2] + x[3] * y[3] + x[4] * y[4]
  {
    var x1, y1 := x[1..], y[1..];
    var x2, y2 := x1[1..], y1[1..];
    var x3, y3 := x2[1..], y2[1..];
    var x4, y4 := x3[1..], y3[1..];
    assert Dot(x4, y4) == x4[0] * y4[0] + Dot(x4[1..], y4[1..]) == x[4] * y[4];
    assert Dot(x3, y3) == x3[0] * y3[0] + Dot(x4, y4);
    assert Dot(x2, y2) == x2[0] * y2[0] + Dot(x3, y3);
    assert Dot(x1, y1) == x1[0] * y1[0] + Dot(x2, y2);
  }

  lemma Sum5(x: Vec)
    requires |x| == 5
    ensures Sum(x) == x[0] + x[1] + x[2] + x[3] + x[4]
  {
    var x1 := x[1..];
    var x2 := x1[1..];
    var x3 := x2[1..];
    var x4 := x3[1..];
    assert Sum(x4) == x4[0] + Sum(x4[1..]) == x[4];
    assert Sum(x3) == x3[0] + Sum(x4);
    assert Sum(x2) == x2[0] + Sum(x3);
    assert Sum(x1) == x1[0] + Sum(x2);
  }

  /** What the row mix x earns against column j. */
  function Column5(x: Vec, a: Mat, j: nat): real
    requires |x| == 5 && Shape(a, 5, 5) && j < 5
  {
    x[0] * a[0][j] + x[1] * a[1][j] + x[2] * a[2][j] + x[3] * a[3][j] + x[4] * a[4][j]
  }

  /** What row i earns against the column mix y. */
  function Row5(a: Mat, y: Vec, i: nat): real
    requires |y| == 5 && Shape(a, 5, 5) && i < 5
  {
    a[i][0] * y[0] + a[i][1] * y[1] + a[i][2] * y[2] + a[i][3] * y[3] + a[i][4] * y[4]
  }

  lemma Column5Is(x: Vec, a: Mat, j: nat)
    requires |x| == 5 && Shape(a, 5, 5) && j < 5
    ensures VecMat(x, a, 5)[j] == Column5(x, a, j)
  {
    hide Dot;
    Dot5(Column(a, j), x);
  }

  lemma Row5Is(a: Mat, y: Vec, i: nat)
    requires |y| == 5 && Shape(a, 5, 5) && i < 5
    ensures MatVec(a, y)[i] == Row5(a, y, i)
  {
    hide Dot;
    Dot5(a[i], y);
  }

  /** A pair of mixes that certifies the value of a game. */
  lemma Certified(a: Mat, x: Vec, y: Vec, v: real)
    requires Shape(a, 5, 5) && |x| == |y| == 5 && NonNeg(x) && NonNeg(y)
    requires x[0] + x[1] + x[2] + x[3] + x[4] == 1.0 == y[0] + y[1] + y[2] + y[3] + y[4]
    requires forall j :: 0 <= j < 5 ==> Column5(x, a, j) >= v
    requires forall i :: 0 <= i < 5 ==> Row5(a, y, i) <= v
    ensures Saddle(a, x, y, v, 0.0)
  {
    hide Dot, Sum, Column5, Row5;
    Sum5(x);
    Sum5(y);
    forall j | 0 <= j < 5 ensures VecMat(x, a, 5)[j] >= v - 0.0 { Column5Is(x, a, j); }
    forall i | 0 <= i < 5 ensures MatVec(a, y)[i] <= v + 0.0 { Row5Is(a, y, i); }
  }

  /** A solution guarantees no more than the value at the columns that are played. */
  lemma NoSlack(a: Mat, x: Vec, y: Vec, v: real, j: nat)
    requires Game(a, |x|, |y|) && Simplex(x) && Simplex(y) && Guarantees(x, a, |y|, v) && Concedes(y, a, v)
    requires j < |y| && y[j] > 0.0
    ensures VecMat(x, a, |y|)[j] == v
  {
    hide Dot, Sum;
    var n, u := |y|, VecMat(x, a, |y|);
    Exchange(x, a, y);
    ConcessionAgainstMix(x, a, y, v);
    var gain := u[j] - v;
    var z := Shift(Scale(gain, Pure(n, j)), v);
    assert forall k :: 0 <= k < n ==> z[k] <= u[k];
    DotMono(y, z, u);
    MixShift(y, Scale(gain, Pure(n, j)), v);
    DotScale(y, gain, Pure(n, j));
    DotComm(y, Pure(n, j));
    DotPure(n, j, y);
    if gain > 0.0 { MulPositive(gain, y[j]); }
  }

  lemma MulPositive(p: real, q: real)
    requires p > 0.0 && q > 0.0
    ensures p * q > 0.0
  {}

  // ----- the last turn -----

  /** At the last turn only the lead in ki matters. */
  function LastPayoff(me: Action, opp: Action, lead: int): real {
    var oc := ImmediateOutcome(me, opp);
    var after := lead + Gain(me) - Cost(me) - Gain(opp) + Cost(opp);
    if oc == 1 then 1.0 else if oc == -1 then 0.0
    else if after > 0 then 1.0 else if after < 0 then 0.0 else 0.5
  }

  function LastMatrix(lead: int): (r: Mat)
    ensures Shape(r, 5, 5)
  {
    seq(5, i requires 0 <= i < 5 => seq(5, j requires 0 <= j < 5 => LastPayoff(ACTION_ORDER[i], ACTION_ORDER[j], lead)))
  }

  lemma LastStage(myKi: int, oppKi: int, f: ValueFn)
    requires 3 <= myKi <= 9 && 3 <= oppKi <= 9
    ensures StageMatrix(myKi, oppKi, 20, HALF, f) == LastMatrix(myKi - oppKi)
  {
    AffordableCases(myKi);
    AffordableCases(oppKi);
    var a, b := StageMatrix(myKi, oppKi, 20, HALF, f), LastMatrix(myKi - oppKi);
    forall i | 0 <= i < 5 ensures a[i] == b[i] {
      assert forall j :: 0 <= j < 5 ==> a[i][j] == b[i][j];
    }
  }

  function LastValue(lead: int): real {
    if lead <= 0 then 0.5 else if lead == 1 then 2.0 / 3.0 else if lead == 2 then 0.8 else 1.0
  }

  function LastRow(lead: int): Vec {
    if lead <= 1 then [1.0 / 3.0, 0.0, 0.0, 1.0 / 3.0, 1.0 / 3.0]
    else if lead == 2 then [0.2, 0.0, 0.0, 0.4, 0.4]
    else [0.0, 0.0, 0.0, 1.0, 0.0]
  }

  function LastColumn(lead: int): Vec {
    if lead <= 1 then [1.0 / 3.0, 0.0, 0.0, 1.0 / 3.0, 1.0 / 3.0]
    else if lead == 2 then [0.4, 0.0, 0.0, 0.2, 0.4]
    else [1.0, 0.0, 0.0, 0.0, 0.0]
  }

  lemma LastSolved(lead: int)
    requires 0 <= lead <= 4
    ensures Saddle(LastMatrix(lead), LastRow(lead), LastColumn(lead), LastValue(lead), 0.0)
  {
    hide Saddle;
    Certified(LastMatrix(lead), LastRow(lead), LastColumn(lead), LastValue(lead));
  }

  /** The value of the last turn, by the lead. */
  lemma LastTurn(s: Solver, myKi: int, oppKi: int)
    requires Accurate(s, 0.0) && 3 <= oppKi <= myKi <= 9 && myKi - oppKi <= 4
    ensures Value(s, HALF, myKi, oppKi, 20) == LastValue(myKi - oppKi)
  {
    hide Value, Accurate, Saddle, StageMatrix, Values, LastMatrix;
    var lead := myKi - oppKi;
    var y := StageSolved(s, 0.5, 0.0, myKi, oppKi, 20);
    LastStage(myKi, oppKi, Values(s, HALF));
    LastSolved(lead);
    ValueUnique(LastMatrix(lead), Mix(s, HALF, myKi, oppKi, 20), y, Value(s, HALF, myKi, oppKi, 20), 0.0,
                LastRow(lead), LastColumn(lead), LastValue(lead), 0.0);
  }

  /** With seven ki against five the solved mix waves or teleports four times in five. */
  lemma LastMix(s: Solver)
    requires Accurate(s, 0.0)
    ensures var x := Mix(s, HALF, 7, 5, 20); |x| == 5 && Simplex(x) && x[3] + x[4] == 0.8
  {
    hide Value, Accurate, StageMatrix, Values, Simplex, LastMatrix, Column5;
    var a, x := LastMatrix(2), Mix(s, HALF, 7, 5, 20);
    var y := StageSolved(s, 0.5, 0.0, 7, 5, 20);
    LastStage(7, 5, Values(s, HALF));
    AffordableCases(7);
    AffordableCases(5);
    LastSolved(2);
    LastTurn(s, 7, 5);
    NoSlack(a, x, LastColumn(2), 0.8, 3);
    Column5Is(x, a, 3);
    WaveColumn(x);
  }

  /** The wave costs whoever neither waves nor teleports the round. */
  lemma WaveEntry(i: nat)
    requires i < 5
    ensures LastMatrix(2)[i][3] == if i >= 3 then 1.0 else 0.0
  {}

  lemma WaveColumn(x: Vec)
    requires |x| == 5
    ensures Column5(x, LastMatrix(2), 3) == x[3] + x[4]
  {
    hide LastMatrix;
    WaveEntry(0);
    WaveEntry(1);
    WaveEntry(2);
    WaveEntry(3);
    WaveEntry(4);
  }

  // ----- the turn before -----

  /** Eight ki against six with two turns to go. */
  const BEFORE: Mat := [
    [0.8, 1.0, 0.0, 0.0, 1.0],
    [2.0 / 3.0, 0.8, 1.0, 0.0, 1.0],
    [1.0, 2.0 / 3.0, 0.8, 0.0, 0.8],
    [1.0, 1.0, 1.0, 0.8, 0.5],
    [0.5, 2.0 / 3.0, 0.8, 1.0, 0.8]]

  const BEFORE_ROW: Vec := [1.0 / 6.0, 0.0, 1.0 / 30.0, 1.0 / 3.0, 7.0 / 15.0]
  const BEFORE_COLUMN: Vec := [1.0 / 3.0, 0.0, 1.0 / 30.0, 1.0 / 6.0, 7.0 / 15.0]
  const BEFORE_VALUE := 11.0 / 15.0

  lemma BeforeEntry(s: Solver, i: nat, j: nat)
    requires Accurate(s, 0.0) && i < 5 && j < 5
    ensures StagePayoff(ACTION_ORDER[i], ACTION_ORDER[j], 8, 6, 19, HALF, Values(s, HALF)) == BEFORE[i][j]
  {
    hide Value, Accurate;
    var me, opp := ACTION_ORDER[i], ACTION_ORDER[j];
    if ImmediateOutcome(me, opp) == 0 {
      LastTurn(s, KiAfter(me, 8), KiAfter(opp, 6));
    }
  }

  lemma BeforeStage(s: Solver)
    requires Accurate(s, 0.0)
    ensures StageMatrix(8, 6, 19, HALF, Values(s, HALF)) == BEFORE
  {
    hide Value, Accurate, Values, StagePayoff;
    AffordableCases(8);
    AffordableCases(6);
    var a := StageMatrix(8, 6, 19, HALF, Values(s, HALF));
    assert |BEFORE| == 5 && forall i :: 0 <= i < 5 ==> |BEFORE[i]| == 5;
    forall i | 0 <= i < 5 ensures a[i] == BEFORE[i] {
      forall j | 0 <= j < 5 ensures a[i][j] == BEFORE[i][j] { BeforeEntry(s, i, j); }
    }
  }

  lemma BeforeSolved()
    ensures Saddle(BEFORE, BEFORE_ROW, BEFORE_COLUMN, BEFORE_VALUE, 0.0)
  {
    hide Saddle;
    Certified(BEFORE, BEFORE_ROW, BEFORE_COLUMN, BEFORE_VALUE);
  }

  /** Its value, and its only solution. */
  lemma TurnBefore(s: Solver)
    requires Accurate(s, 0.0)
    ensures Value(s, HALF, 8, 6, 19) == BEFORE_VALUE
    ensures Mix(s, HALF, 8, 6, 19) == BEFORE_ROW
  {
    hide Value, Accurate, StageMatrix, Values, VecMat, MatVec, Simplex;
    var x := Mix(s, HALF, 8, 6, 19);
    var y := StageSolved(s, 0.5, 0.0, 8, 6, 19);
    BeforeStage(s);
    AffordableCases(8);
    AffordableCases(6);
    BeforeSolved();
    ValueUnique(BEFORE, x, y, Value(s, HALF, 8, 6, 19), 0.0, BEFORE_ROW, BEFORE_COLUMN, BEFORE_VALUE, 0.0);
    BeforeColumn(x, 0);
    BeforeColumn(x, 2);
    BeforeColumn(x, 3);
    BeforeColumn(x, 4);
    assert Sum(x) == 1.0 by { assert Saddle(BEFORE, x, y, BEFORE_VALUE, 0.0); SimplexSum(x); }
    Sum5(x);
    OnlySolution(x);
  }

  lemma BeforeColumn(x: Vec, j: nat)
    requires |x| == 5 && Simplex(x) && Game(BEFORE, 5, 5) && Guarantees(x, BEFORE, 5, BEFORE_VALUE) && j in {0, 2, 3, 4}
    ensures Column5(x, BEFORE, j) == BEFORE_VALUE
  {
    hide VecMat, Simplex, Column5;
    BeforeSolved();
    NoSlack(BEFORE, x, BEFORE_COLUMN, BEFORE_VALUE, j);
    Column5Is(x, BEFORE, j);
  }

  lemma OnlySolution(x: Vec)
    requires |x| == 5 && x[0] + x[1] + x[2] + x[3] + x[4] == 1.0
    requires Game(BEFORE, 5, 5) && forall j :: j in {0, 2, 3, 4} ==> Column5(x, BEFORE, j) == BEFORE_VALUE
    ensures x == BEFORE_ROW
  {
    assert Column5(x, BEFORE, 0) == BEFORE_VALUE && Column5(x, BEFORE, 2) == BEFORE_VALUE;
    assert Column5(x, BEFORE, 3) == BEFORE_VALUE && Column5(x, BEFORE, 4) == BEFORE_VALUE;
    var p, q, r, u, v := x[0], x[1], x[2], x[3], x[4];
    assert 0.8 * p + q * (2.0 / 3.0) + r + u + 0.5 * v == BEFORE_VALUE;
    assert q + 0.8 * r + u + 0.8 * v == BEFORE_VALUE;
    assert 0.8 * u + v == BEFORE_VALUE;
    assert p + q + 0.8 * r + 0.5 * u + 0.8 * v == BEFORE_VALUE;
    assert p == 1.0 / 6.0 && q == 0.0 && r == 1.0 / 30.0 && u == 1.0 / 3.0 && v == 7.0 / 15.0;
  }
}
