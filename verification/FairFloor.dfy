/** When any way of playing a round secures one half: the strategy that plays like oneself. */
module FairFloor {
  import opened Wrappers
  import opened GameRules
  import opened Mirror
  import opened Vectors
  import opened MatrixGame
  import opened ZeroSum
  import opened StageGame
  import opened RoundSolver
  import opened RoundGuarantee
  import opened DrawWeights
  import opened MatchSolver
  import opened Strategies

  // ----- playing against oneself -----

  lemma SwapMovesTwice(h: History)
    ensures SwapMoves(SwapMoves(h)) == h
  {
    assert forall i :: 0 <= i < |h| ==> SwapMoves(SwapMoves(h))[i] == h[i];
  }

  lemma SwapMovesSnoc(h: History, me: Action, opp: Action)
    ensures SwapMoves(h + [(me, opp)]) == SwapMoves(h) + [(opp, me)]
  {}

  /** The opponent who plays the way I do. */
  function Double(row: Policy): Policy {
    (h, own, other, t) => row(SwapMoves(h), own, other, t)
  }

  lemma DoubleLegal(row: Policy)
    requires Legal(row)
    ensures Legal(Double(row))
  {
    forall h: History, own, other, t | KiRange(own) ensures MixFor(Double(row)(h, own, other, t), own) {
      MixesAt(row, SwapMoves(h), own, other, t);
    }
  }

  // ----- two chairs of one game -----

  /** What I get after a pair of actions, and what I would get in the other chair, make
      at most one. */
  ghost predicate AtMostOne(m: Mat, m': Mat, n: nat, l: nat)
    requires Shape(m, n, l) && Shape(m', l, n)
  {
    forall i, j :: 0 <= i < n && 0 <= j < l ==> m[i][j] + m'[j][i] <= 1.0
  }

  lemma ChairsAverage(m: Mat, m': Mat, x: Vec, y: Vec)
    requires Shape(m, |x|, |y|) && Shape(m', |y|, |x|) && Simplex(x) && Simplex(y) && AtMostOne(m, m', |x|, |y|)
    ensures Bilinear(x, m, y) + Bilinear(y, m', x) <= 1.0
  {
    hide Dot, Complement, Simplex, Bilinear;
    var flipped := Complement(m, |y|);
    ComplementEntry(m, |x|, |y|);
    forall j, i | 0 <= j < |y| && 0 <= i < |x| ensures flipped[j][i] >= m'[j][i] - 0.0 {
      assert m[i][j] + m'[j][i] <= 1.0;
    }
    AverageNoWorse(m', flipped, y, x, 0.0);
    FlippedAverage(m, x, y);
  }

  lemma FlippedAverage(m: Mat, x: Vec, y: Vec)
    requires Shape(m, |x|, |y|) && Simplex(x) && Simplex(y)
    ensures Shape(Complement(m, |y|), |y|, |x|)
    ensures Bilinear(y, Complement(m, |y|), x) == 1.0 - Bilinear(x, m, y)
  {
    hide Dot, Complement, VecMat, Sum;
    ComplementUtilities(m, x, y);
    AffineDot(y, VecMat(x, m, |y|), 1.0, -1.0);
    Exchange(x, m, y);
  }

  /** The square of c is at most the average it is taken from. */
  lemma {:induction false} SquareSum(x: Vec, c: real)
    ensures Dot(x, x) >= 2.0 * c * Sum(x) - c * c * |x| as real
  {
    if x != [] {
      SquareSum(x[1..], c);
      SquareNear(x[0], c);
      var rest, n := Sum(x[1..]), |x[1..]| as real;
      assert 2.0 * c * (x[0] + rest) == 2.0 * c * x[0] + 2.0 * c * rest;
      assert c * c * (n + 1.0) == c * c * n + c * c;
    }
  }

  lemma SquareNear(p: real, c: real)
    ensures p * p >= 2.0 * c * p - c * c
  {
    assert (p - c) * (p - c) >= 0.0;
    assert (p - c) * (p - c) == p * p - 2.0 * c * p + c * c;
  }

  /** The diagonal raised by g. */
  function RaiseDiagonal(m: Mat, n: nat, g: real): Mat
    requires Shape(m, n, n)
  {
    seq(n, i requires 0 <= i < n => Add(m[i], Scale(g, Pure(n, i))))
  }

  lemma RaisedAverage(m: Mat, x: Vec, g: real)
    requires Shape(m, |x|, |x|)
    ensures Shape(RaiseDiagonal(m, |x|, g), |x|, |x|)
    ensures Bilinear(x, RaiseDiagonal(m, |x|, g), x) == Bilinear(x, m, x) + g * Dot(x, x)
  {
    hide Dot;
    var n, r := |x|, RaiseDiagonal(m, |x|, g);
    forall i | 0 <= i < n ensures MatVec(r, x)[i] == MatVec(m, x)[i] + g * x[i] {
      DotComm(r[i], x);
      DotAdd(x, m[i], Scale(g, Pure(n, i)));
      DotScale(x, g, Pure(n, i));
      DotComm(x, Pure(n, i));
      DotPure(n, i, x);
      DotComm(m[i], x);
    }
    var u, u' := MatVec(r, x), Add(MatVec(m, x), Scale(g, x));
    assert forall i :: 0 <= i < n ==> u[i] == u'[i];
    assert u == u';
    DotAdd(x, MatVec(m, x), Scale(g, x));
    DotScale(x, g, x);
  }

  /** Both playing the same mix over at most five actions draw the diagonal at least
      one time in five. */
  lemma SameMix(m: Mat, x: Vec, edge: real)
    requires 1 <= |x| <= 5 && Shape(m, |x|, |x|) && Simplex(x) && AtMostOne(m, m, |x|, |x|) && edge >= 0.0
    requires forall i :: 0 <= i < |x| ==> m[i][i] <= 0.5 - edge
    ensures Bilinear(x, m, x) <= 0.5 - Times(0.2, edge)
  {
    hide Dot, Bilinear, Sum;
    var n := |x|;
    var r := RaiseDiagonal(m, n, 2.0 * edge);
    assert AtMostOne(m, r, n, n) by {
      forall i, j | 0 <= i < n && 0 <= j < n ensures m[i][j] + r[j][i] <= 1.0 {
        assert r[j][i] == m[j][i] + 2.0 * edge * (if i == j then 1.0 else 0.0);
      }
    }
    ChairsAverage(m, r, x, x);
    RaisedAverage(m, x, 2.0 * edge);
    SquareSum(x, 0.2);
    MulMono(edge, 0.2, Dot(x, x));
  }

  // ----- a round -----

  /** Where draws are worth at most one half, my chances and those of the other chair
      make at most one, whatever has been played. */
  lemma {:induction false} ChairsSum(row: Policy, lam: real, a: int, b: int, t: int, h: History)
    requires Legal(row) && Legal(Double(row)) && KiRange(a) && KiRange(b) && t <= TURN_LIMIT && 0.0 <= lam <= 0.5
    ensures Expected(row, Double(row), LamLeaves(lam), a, b, t, h)
          + Expected(row, Double(row), LamLeaves(lam), b, a, t, SwapMoves(h)) <= 1.0
    decreases TURN_LIMIT - t
  {
    hide Expected, PlayMatrix, Bilinear, Legal, AffordableActions, SwapMoves;
    var w := LamLeaves(lam);
    var x, y := row(h, a, b, t), row(SwapMoves(h), b, a, t);
    var m, m' := PlayMatrix(row, Double(row), w, a, b, t, h), PlayMatrix(row, Double(row), w, b, a, t, SwapMoves(h));
    SwapMovesTwice(h);
    MixesAt(row, h, a, b, t);
    MixesAt(row, SwapMoves(h), b, a, t);
    forall i, j | 0 <= i < |x| && 0 <= j < |y| ensures m[i][j] + m'[j][i] <= 1.0 {
      var me, opp := AffordableActions(a)[i], AffordableActions(b)[j];
      if t < TURN_LIMIT && ImmediateOutcome(me, opp) == 0 {
        SwapMovesSnoc(h, me, opp);
        ChairsSum(row, lam, KiAfter(me, a), KiAfter(opp, b), t + 1, h + [(me, opp)]);
      }
      ChairsEntry(row, lam, a, b, t, h, i, j);
    }
    ChairsAverage(m, m', x, y);
    ExpectedHere(row, Double(row), w, a, b, t, h);
    ExpectedHere(row, Double(row), w, b, a, t, SwapMoves(h));
  }

  lemma ChairsEntry(row: Policy, lam: real, a: int, b: int, t: int, h: History, i: nat, j: nat)
    requires Legal(row) && Legal(Double(row)) && KiRange(a) && KiRange(b) && t <= TURN_LIMIT && 0.0 <= lam <= 0.5
    requires i < |AffordableActions(a)| && j < |AffordableActions(b)|
    requires var me, opp := AffordableActions(a)[i], AffordableActions(b)[j];
      t < TURN_LIMIT && ImmediateOutcome(me, opp) == 0 ==>
        Expected(row, Double(row), LamLeaves(lam), KiAfter(me, a), KiAfter(opp, b), t + 1, h + [(me, opp)])
        + Expected(row, Double(row), LamLeaves(lam), KiAfter(opp, b), KiAfter(me, a), t + 1, SwapMoves(h) + [(opp, me)])
        <= 1.0
    ensures PlayMatrix(row, Double(row), LamLeaves(lam), a, b, t, h)[i][j]
          + PlayMatrix(row, Double(row), LamLeaves(lam), b, a, t, SwapMoves(h))[j][i] <= 1.0
  {
    hide Expected, AffordableActions, SwapMoves, Double;
    var me, opp := AffordableActions(a)[i], AffordableActions(b)[j];
    assert ImmediateOutcome(opp, me) == -ImmediateOutcome(me, opp);
  }

  /** What a level position lacks to one half: the chance that both keep choosing the
      same action, times what a draw lacks. */
  function Edge(lam: real, t: int): real
    decreases TURN_LIMIT - t
  {
    if t > TURN_LIMIT then 0.5 - lam else Times(0.2, Edge(lam, t + 1))
  }

  lemma {:induction false} EdgePositive(lam: real, t: int)
    requires lam <= 0.5
    ensures Edge(lam, t) >= 0.0 && (lam < 0.5 ==> Edge(lam, t) > 0.0)
    decreases TURN_LIMIT - t
  {
    if t <= TURN_LIMIT { EdgePositive(lam, t + 1); }
  }

  /** No way of playing gets more than that against its own double. */
  lemma {:induction false} LevelBelowHalf(row: Policy, lam: real, a: int, t: int, h: History)
    requires Legal(row) && Legal(Double(row)) && KiRange(a) && t <= TURN_LIMIT && 0.0 <= lam <= 0.5 && h == SwapMoves(h)
    ensures Expected(row, Double(row), LamLeaves(lam), a, a, t, h) <= 0.5 - Edge(lam, t)
    decreases TURN_LIMIT - t
  {
    hide Expected, PlayMatrix, Bilinear, Legal, AffordableActions, SwapMoves, Times;
    var w, x := LamLeaves(lam), row(h, a, a, t);
    var m := PlayMatrix(row, Double(row), w, a, a, t, h);
    MixesAt(row, h, a, a, t);
    EdgePositive(lam, t + 1);
    assert 1 <= |x| <= 5 by { AffordableCases(a); }
    forall i, j | 0 <= i < |x| && 0 <= j < |x| ensures m[i][j] + m[j][i] <= 1.0 {
      var me, opp := AffordableActions(a)[i], AffordableActions(a)[j];
      if t < TURN_LIMIT && ImmediateOutcome(me, opp) == 0 {
        SwapMovesSnoc(h, me, opp);
        ChairsSum(row, lam, KiAfter(me, a), KiAfter(opp, a), t + 1, h + [(me, opp)]);
      }
      ChairsEntry(row, lam, a, a, t, h, i, j);
    }
    forall i | 0 <= i < |x| ensures m[i][i] <= 0.5 - Edge(lam, t + 1) {
      var me := AffordableActions(a)[i];
      if t < TURN_LIMIT {
        SwapMovesSnoc(h, me, me);
        LevelBelowHalf(row, lam, KiAfter(me, a), t + 1, h + [(me, me)]);
      }
      LevelEntry(row, lam, a, t, h, i);
    }
    SameMix(m, x, Edge(lam, t + 1));
    ExpectedHere(row, Double(row), w, a, a, t, h);
  }

  lemma LevelEntry(row: Policy, lam: real, a: int, t: int, h: History, i: nat)
    requires Legal(row) && Legal(Double(row)) && KiRange(a) && t <= TURN_LIMIT && i < |AffordableActions(a)|
    ensures var me, m := AffordableActions(a)[i], PlayMatrix(row, Double(row), LamLeaves(lam), a, a, t, h);
      m[i][i] == if t < TURN_LIMIT
                 then Expected(row, Double(row), LamLeaves(lam), KiAfter(me, a), KiAfter(me, a), t + 1, h + [(me, me)])
                 else lam
  {
    hide Expected, AffordableActions, Double;
    var me := AffordableActions(a)[i];
    assert ImmediateOutcome(me, me) == 0;
  }

  // ----- the floor -----

  /** At least one half from the start of a round, against every opponent. */
  ghost predicate SecuresHalf(row: Policy, lam: real)
    requires Legal(row)
  {
    forall col: Policy :: Legal(col) ==> Expected(row, col, LamLeaves(lam), 0, 0, 1, []) >= 0.5
  }

  /** Where a draw is worth less than one half, nothing secures one half: whatever I
      play, the opponent who plays the same way holds me below it. */
  lemma NothingSecuresHalf(row: Policy, lam: real)
    requires Legal(row) && 0.0 <= lam < 0.5
    ensures Legal(Double(row)) && Expected(row, Double(row), LamLeaves(lam), 0, 0, 1, []) <= 0.5 - Edge(lam, 1) < 0.5
    ensures !SecuresHalf(row, lam)
  {
    hide Expected, Edge, Legal;
    DoubleLegal(row);
    assert SwapMoves([]) == [];
    EdgePositive(lam, 1);
    LevelBelowHalf(row, lam, 0, 1, []);
  }

  /** So the documented floor of one half holds exactly for the rounds whose draw is
      worth at least one half: with the exact solver the table secures it there, and
      elsewhere nothing does. */
  lemma HalfExactlyWhen(s: Solver, lam: real)
    requires Accurate(s, 0.0) && Sound(s) && 0.0 <= lam <= 1.0
    ensures Legal(TablePolicy(s, lam))
    ensures SecuresHalf(TablePolicy(s, lam), lam) <==> lam >= 0.5
    ensures (exists row: Policy :: Legal(row) && SecuresHalf(row, lam)) <==> lam >= 0.5
  {
    hide Expected, Accurate, Legal, TablePolicy;
    TablePolicyLegal(s, lam);
    if lam >= 0.5 {
      forall col: Policy | Legal(col) ensures Expected(TablePolicy(s, lam), col, LamLeaves(lam), 0, 0, 1, []) >= 0.5 {
        RoundFloor(col, s, lam, 0.0);
      }
    } else {
      forall row: Policy | Legal(row) ensures !SecuresHalf(row, lam) {
        NothingSecuresHalf(row, lam);
      }
    }
  }

  /** The scores at which the floor holds: the table of a score's draw weight secures
      one half if and only if I am not leading. Leading 1-0 before the third round the
      draw weight is zero. */
  lemma HalfByScore(s: Solver, k: Score)
    requires Accurate(s, 0.0) && Sound(s) && PreRound(k)
    ensures Terminal(k) == None && 0.0 <= DrawWeight(RoundValue(Exactly(s)), k) <= 1.0
    ensures var lam := DrawWeight(RoundValue(Exactly(s)), k);
      Legal(TablePolicy(s, lam)) && (SecuresHalf(TablePolicy(s, lam), lam) <==> k.my <= k.opp)
    ensures DrawWeight(RoundValue(Exactly(s)), Score(1, 0, 2)) == 0.0
  {
    hide DrawWeight, Worth, RoundStart, SecuresHalf, TablePolicy, Accurate;
    var r := RoundValue(Exactly(s));
    ExactlySound(s);
    RoundValueIsOracle(Exactly(s), 0.0);
    MatchWellFormed(r, k);
    LostDraws(s);
    WeightByStanding(r, k);
    DecidingWeights(r);
    HalfExactlyWhen(s, DrawWeight(r, k));
  }

  /** A round whose draw is lost is worth less than one half. */
  lemma LostDraws(s: Solver)
    requires Accurate(s, 0.0) && Sound(s)
    ensures RoundStart(s, 0.0) < 0.5
  {
    hide Expected, Accurate, Value, TablePolicy, Legal, InUnits, Edge;
    EndProper();
    TablePolicyLegal(s, 0.0);
    NothingSecuresHalf(TablePolicy(s, 0.0), 0.0);
    TableGuarantee(Double(TablePolicy(s, 0.0)), LamLeaves(0.0), s, 0.0, 0.0, 0, 0, 1, []);
    NormalizedUnits(0.0, RoundStart(s, 0.0) - 0.0);
  }

  lemma EndProper()
    ensures Proper(LamLeaves(0.0), 0.0)
  {}
}
