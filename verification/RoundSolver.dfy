/** One round solved by backward induction over turns and both players' ki. */
module RoundSolver {
  import opened GameRules
  import opened Vectors
  import opened MatrixGame
  import opened RegretMatching
  import opened ZeroSum
  import opened StageGame

  const N_KI: nat := KI_CAP + 1

  /** The value of a round state, as the solver computes it from the turn after.
      Past the turn limit and outside the ki range the table is zero. */
  function Value(s: Solver, w: Leaves, myKi: int, oppKi: int, turn: int): real
    decreases TURN_LIMIT - turn
  {
    if KiRange(myKi) && KiRange(oppKi) && turn <= TURN_LIMIT
    then StageSolution(s, w, myKi, oppKi, turn, (a, b, t) => if t > turn then Value(s, w, a, b, t) else 0.0).value
    else 0.0
  }

  function StageSolution(s: Solver, w: Leaves, myKi: int, oppKi: int, turn: int, next: ValueFn): RowSolution
    requires 0 <= myKi && 0 <= oppKi
  {
    StageShape(myKi, oppKi, turn, w, next);
    ZeroSumSolution(StageMatrix(myKi, oppKi, turn, w, next),
                    |AffordableActions(myKi)|, |AffordableActions(oppKi)|, s)
  }

  /** The whole value table as a function. */
  function Values(s: Solver, w: Leaves): ValueFn {
    (a, b, t) => Value(s, w, a, b, t)
  }

  /** The solved mix over my affordable actions. */
  function Mix(s: Solver, w: Leaves, myKi: int, oppKi: int, turn: int): Vec
    requires 0 <= myKi && 0 <= oppKi
  {
    StageSolution(s, w, myKi, oppKi, turn, Values(s, w)).row
  }

  /** The recursion closes: each value is the solution of the stage built from the table itself. */
  lemma ValueUnfolds(s: Solver, w: Leaves, myKi: int, oppKi: int, turn: int)
    requires KiRange(myKi) && KiRange(oppKi) && turn <= TURN_LIMIT
    ensures Value(s, w, myKi, oppKi, turn) == StageSolution(s, w, myKi, oppKi, turn, Values(s, w)).value
  {
    var next: ValueFn := (a, b, t) => if t > turn then Value(s, w, a, b, t) else 0.0;
    StageReadsNextLayer(myKi, oppKi, turn, w, next, Values(s, w));
  }

  /** Every solved mix is a mix over the affordable actions. */
  lemma MixLegal(s: Solver, w: Leaves, myKi: int, oppKi: int, turn: int)
    requires 0 <= myKi && 0 <= oppKi && Sound(s)
    ensures |Mix(s, w, myKi, oppKi, turn)| == |AffordableActions(myKi)| && Simplex(Mix(s, w, myKi, oppKi, turn))
  {
    var next := Values(s, w);
    StageShape(myKi, oppKi, turn, w, next);
    FacadeMix(StageMatrix(myKi, oppKi, turn, w, next), |AffordableActions(myKi)|, |AffordableActions(oppKi)|, s);
  }

  // ----- the table filled in place -----

  ghost predicate TableSized<T>(v: array3<T>) {
    v.Length0 == v.Length1 == N_KI && v.Length2 == TURN_LIMIT
  }

  /** The lookup of continuation values in the partly filled array. */
  function Lookup(v: array3<real>, turn: int): (f: ValueFn)
    requires TableSized(v) && 1 <= turn
    reads v
    ensures turn < TURN_LIMIT ==>
      forall a, b :: KiRange(a) && KiRange(b) ==> f(a, b, turn + 1) == v[a, b, turn]
  {
    var layer := map a: int, b: int | 0 <= a < N_KI && 0 <= b < N_KI ::
      (a, b) := if turn < TURN_LIMIT then v[a, b, turn] else 0.0;
    (a, b, t) => if (a, b) in layer then layer[(a, b)] else 0.0
  }

  lemma LookupIsTable(v: array3<real>, s: Solver, w: Leaves, turn: int)
    requires TableSized(v) && 1 <= turn
    requires turn < TURN_LIMIT ==> forall a, b :: KiRange(a) && KiRange(b) ==>
      v[a, b, turn] == Value(s, w, a, b, turn + 1)
    ensures turn < TURN_LIMIT ==> SameLayer(Lookup(v, turn), Values(s, w), turn + 1)
  {
    hide Value;
    if turn < TURN_LIMIT {
      forall a, b | KiRange(a) && KiRange(b) ensures Lookup(v, turn)(a, b, turn + 1) == Values(s, w)(a, b, turn + 1) {
        assert v[a, b, turn] == Value(s, w, a, b, turn + 1);
      }
    }
  }

  /** The solved mix as it is stored: a vector over all five actions. */
  ghost function StoredMix(s: Solver, w: Leaves, myKi: int, oppKi: int, turn: int): (r: Vec)
    requires 0 <= myKi && 0 <= oppKi && Sound(s)
    ensures LegalVector(r, myKi)
  {
    MixLegal(s, w, myKi, oppKi, turn);
    SpreadLegal(Mix(s, w, myKi, oppKi, turn), myKi);
    Spread(Mix(s, w, myKi, oppKi, turn), myKi)
  }

  /** Turn by turn from the last to the first, every cell of the value array and of
      the strategy array receives the solution of its stage. */
  method SolveRoundTable(lam: real, s: Solver) returns (v: array3<real>, sigma: array3<Vec>)
    requires Sound(s)
    ensures fresh(v) && fresh(sigma) && TableSized(v) && TableSized(sigma)
    ensures forall a, b, i :: KiRange(a) && KiRange(b) && 0 <= i < TURN_LIMIT ==>
      v[a, b, i] == Value(s, LamLeaves(lam), a, b, i + 1) && sigma[a, b, i] == StoredMix(s, LamLeaves(lam), a, b, i + 1)
  {
    v := new real[N_KI, N_KI, TURN_LIMIT]((_, _, _) => 0.0);
    sigma := new Vec[N_KI, N_KI, TURN_LIMIT]((_, _, _) => Const(5, 0.0));
    for turn := TURN_LIMIT downto 0
      invariant forall a, b, i :: KiRange(a) && KiRange(b) && turn <= i < TURN_LIMIT ==>
        v[a, b, i] == Value(s, LamLeaves(lam), a, b, i + 1)
          && sigma[a, b, i] == StoredMix(s, LamLeaves(lam), a, b, i + 1)
    {
      SolveLayer(v, sigma, lam, s, turn + 1);
    }
  }

  /** The two inner loops: all states of one turn. */
  method SolveLayer(v: array3<real>, sigma: array3<Vec>, lam: real, s: Solver, turn: int)
    requires TableSized(v) && TableSized(sigma) && 1 <= turn <= TURN_LIMIT && Sound(s)
    requires forall a, b, i :: KiRange(a) && KiRange(b) && turn <= i < TURN_LIMIT ==>
      v[a, b, i] == Value(s, LamLeaves(lam), a, b, i + 1) && sigma[a, b, i] == StoredMix(s, LamLeaves(lam), a, b, i + 1)
    modifies v, sigma
    ensures forall a, b, i :: KiRange(a) && KiRange(b) && turn - 1 <= i < TURN_LIMIT ==>
      v[a, b, i] == Value(s, LamLeaves(lam), a, b, i + 1) && sigma[a, b, i] == StoredMix(s, LamLeaves(lam), a, b, i + 1)
  {
    hide Mix, Spread, Value, StoredMix;
    var ti := turn - 1;
    for myKi := 0 to N_KI
      invariant forall a, b, i :: KiRange(a) && KiRange(b) && turn <= i < TURN_LIMIT ==>
        v[a, b, i] == Value(s, LamLeaves(lam), a, b, i + 1)
          && sigma[a, b, i] == StoredMix(s, LamLeaves(lam), a, b, i + 1)
      invariant forall a, b :: 0 <= a < myKi && KiRange(b) ==>
        v[a, b, ti] == Value(s, LamLeaves(lam), a, b, turn)
          && sigma[a, b, ti] == StoredMix(s, LamLeaves(lam), a, b, turn)
    {
      for oppKi := 0 to N_KI
        invariant forall a, b, i :: KiRange(a) && KiRange(b) && turn <= i < TURN_LIMIT ==>
          v[a, b, i] == Value(s, LamLeaves(lam), a, b, i + 1)
            && sigma[a, b, i] == StoredMix(s, LamLeaves(lam), a, b, i + 1)
        invariant forall a, b :: 0 <= a < myKi && KiRange(b) ==>
        v[a, b, ti] == Value(s, LamLeaves(lam), a, b, turn)
          && sigma[a, b, ti] == StoredMix(s, LamLeaves(lam), a, b, turn)
        invariant forall b :: 0 <= b < oppKi ==>
          v[myKi, b, ti] == Value(s, LamLeaves(lam), myKi, b, turn)
            && sigma[myKi, b, ti] == StoredMix(s, LamLeaves(lam), myKi, b, turn)
      {
        var value, vector := SolveState(v, lam, s, myKi, oppKi, turn);
        v[myKi, oppKi, ti] := value;
        sigma[myKi, oppKi, ti] := vector;
      }
    }
  }

  /** One state: build its matrix from the turn after, solve it, spread the mix. */
  method SolveState(v: array3<real>, lam: real, s: Solver, myKi: int, oppKi: int, turn: int)
    returns (value: real, vector: Vec)
    requires TableSized(v) && KiRange(myKi) && KiRange(oppKi) && 1 <= turn <= TURN_LIMIT && Sound(s)
    requires turn < TURN_LIMIT ==> forall a, b :: KiRange(a) && KiRange(b) ==>
      v[a, b, turn] == Value(s, LamLeaves(lam), a, b, turn + 1)
    ensures value == Value(s, LamLeaves(lam), myKi, oppKi, turn)
    ensures vector == StoredMix(s, LamLeaves(lam), myKi, oppKi, turn)
  {
    hide Value, ZeroSumSolution, StageMatrix, Spread, Lookup, SameLayer;
    var w := LamLeaves(lam);
    var next := Lookup(v, turn);
    var matrix := StageMatrix(myKi, oppKi, turn, w, next);
    StageShape(myKi, oppKi, turn, w, next);
    var sol := SolveZeroSum(matrix, s);
    LookupIsTable(v, s, w, turn);
    StageReadsNextLayer(myKi, oppKi, turn, w, next, Values(s, w));
    ValueUnfolds(s, w, myKi, oppKi, turn);
    MixLegal(s, w, myKi, oppKi, turn);
    value, vector := sol.value, Spread(sol.row, myKi);
  }

  /** The solved round as a row player's guarantee at every state, up to d per stage. */
  lemma StageSolved(s: Solver, lam: real, d: real, myKi: int, oppKi: int, turn: int) returns (y: Vec)
    requires KiRange(myKi) && KiRange(oppKi) && turn <= TURN_LIMIT && 0.0 <= lam <= 1.0 && Accurate(s, d)
    ensures Saddle(StageMatrix(myKi, oppKi, turn, LamLeaves(lam), Values(s, LamLeaves(lam))),
                   Mix(s, LamLeaves(lam), myKi, oppKi, turn), y, Value(s, LamLeaves(lam), myKi, oppKi, turn), d)
    ensures |Mix(s, LamLeaves(lam), myKi, oppKi, turn)| == |AffordableActions(myKi)|
    ensures |y| == |AffordableActions(oppKi)|
  {
    hide Value, Saddle, ZeroSumSolution, Accurate;
    var w := LamLeaves(lam);
    assert Sound(s) by { AccurateIsSound(s, d); }
    ValueUnfolds(s, w, myKi, oppKi, turn);
    if turn < TURN_LIMIT {
      forall a, b | KiRange(a) && KiRange(b) ensures 0.0 <= Values(s, w)(a, b, turn + 1) <= 1.0 {
        ValueRange(s, lam, a, b, turn + 1);
      }
    }
    StageRange(myKi, oppKi, turn, lam, Values(s, w));
    AffordableCases(myKi);
    AffordableCases(oppKi);
    y := FacadeSolvesStage(StageMatrix(myKi, oppKi, turn, w, Values(s, w)),
                      |AffordableActions(myKi)|, |AffordableActions(oppKi)|, s, d);
  }

  /** Every value of a solved round is in [0, 1]. */
  lemma {:induction false} ValueRange(s: Solver, lam: real, myKi: int, oppKi: int, turn: int)
    requires KiRange(myKi) && KiRange(oppKi) && turn <= TURN_LIMIT && 0.0 <= lam <= 1.0 && Sound(s)
    ensures 0.0 <= Value(s, LamLeaves(lam), myKi, oppKi, turn) <= 1.0
    decreases TURN_LIMIT - turn
  {
    hide StageMatrix, ZeroSumSolution;
    var w := LamLeaves(lam);
    ValueUnfolds(s, w, myKi, oppKi, turn);
    if turn < TURN_LIMIT {
      forall a, b | KiRange(a) && KiRange(b) ensures 0.0 <= Values(s, w)(a, b, turn + 1) <= 1.0 {
        ValueRange(s, lam, a, b, turn + 1);
      }
    }
    StageRange(myKi, oppKi, turn, lam, Values(s, w));
    FacadeRange(StageMatrix(myKi, oppKi, turn, w, Values(s, w)),
                |AffordableActions(myKi)|, |AffordableActions(oppKi)|, s);
  }

  // ----- constant-sum symmetry -----

  /** Solving a round for draw weight lam and for 1 - lam with the seats exchanged
      gives values that add up to one at every state. */
  lemma {:induction false} ConstantSum(s: Solver, lam: real, myKi: int, oppKi: int, turn: int)
    requires KiRange(myKi) && KiRange(oppKi) && turn <= TURN_LIMIT && Sound(s)
    ensures Value(s, LamLeaves(lam), myKi, oppKi, turn) + Value(s, LamLeaves(1.0 - lam), oppKi, myKi, turn) == 1.0
    decreases TURN_LIMIT - turn
  {
    hide StageMatrix, ZeroSumSolution, Complement;
    var w, w' := LamLeaves(lam), LamLeaves(1.0 - lam);
    var f, g := Values(s, w), Values(s, w');
    ValueUnfolds(s, w, myKi, oppKi, turn);
    ValueUnfolds(s, w', oppKi, myKi, turn);
    if turn < TURN_LIMIT {
      forall a, b | KiRange(a) && KiRange(b) ensures g(b, a, turn + 1) == 1.0 - f(a, b, turn + 1) {
        ConstantSum(s, lam, a, b, turn + 1);
      }
    }
    var n, m := |AffordableActions(myKi)|, |AffordableActions(oppKi)|;
    var matrix := StageMatrix(myKi, oppKi, turn, w, f);
    StageShape(myKi, oppKi, turn, w, f);
    StageMirror(myKi, oppKi, turn, lam, f, g);
    FacadeMirror(matrix, n, m, s);
  }

  /** The normalized value of starting a round. */
  function RoundStart(s: Solver, lam: real): real {
    Value(s, LamLeaves(lam), 0, 0, 1)
  }

  /** A round whose draw is worth one half is worth exactly one half to each player,
      and opposite draw weights give opposite values. */
  lemma RoundStartSymmetric(s: Solver, lam: real)
    requires 0.0 <= lam <= 1.0 && Sound(s)
    ensures 0.0 <= RoundStart(s, lam) <= 1.0
    ensures RoundStart(s, lam) + RoundStart(s, 1.0 - lam) == 1.0
    ensures RoundStart(s, 0.5) == 0.5
  {
    hide Value;
    ValueRange(s, lam, 0, 0, 1);
    ConstantSum(s, lam, 0, 0, 1);
    ConstantSum(s, 0.5, 0, 0, 1);
    assert 1.0 - 0.5 == 0.5;
  }

  // ----- exact tables: any table whose stages are saddle points -----

  /** A value table in which every entry is the value of the stage game built from
      the table itself, for leaves w. */
  ghost predicate ExactTable(w: Leaves, v: ValueFn) {
    forall a, b, t :: KiRange(a) && KiRange(b) && 1 <= t <= TURN_LIMIT ==>
      IsValue(StageMatrix(a, b, t, w, v), v(a, b, t))
  }

  lemma SameValue(a: Mat, n: nat, m: nat, v: real, v': real)
    requires Game(a, n, m) && IsValue(a, v) && IsValue(a, v')
    ensures v == v'
  {
    var x, y :| Saddle(a, x, y, v, 0.0);
    var x', y' :| Saddle(a, x', y', v', 0.0);
    SaddleSizes(a, x, y, v, n, m);
    SaddleSizes(a, x', y', v', n, m);
    ValueUnique(a, x, y, v, 0.0, x', y', v', 0.0);
  }

  lemma SaddleSizes(a: Mat, x: Vec, y: Vec, v: real, n: nat, m: nat)
    requires Game(a, n, m) && Saddle(a, x, y, v, 0.0)
    ensures |x| == n && |y| == m
  {
    assert |a[0]| == m && |a[0]| == |y|;
  }

  lemma SaddleInUnits(a: Mat, x: Vec, y: Vec, v: real, w: Leaves)
    requires Saddle(a, x, y, v, 0.0) && w.win >= w.loss
    ensures Saddle(AffineMat(a, w.loss, Span(w)), x, y, InUnits(w, v), 0.0)
  {
    var unit := Span(w);
    assert unit >= 0.0;
    hide Saddle, AffineMat, Span;
    AffineSaddle(a, x, y, v, 0.0, w.loss, unit);
    assert unit * 0.0 == 0.0;
    assert w.loss + unit * v == InUnits(w, v);
  }

  /** Affine invariance. Let lam = (D - L) / (W - L). Any exact table for the raw
      leaves W, D, L is the lam-table moved into those units, at every state; and a
      saddle point of a lam-stage is a saddle point of the raw stage. */
  lemma {:induction false} AffineInvariance(w: Leaves, lam: real, v: ValueFn, raw: ValueFn, myKi: int, oppKi: int,
                                            turn: int)
    requires w.win > w.loss && w.draw == InUnits(w, lam)
    requires ExactTable(LamLeaves(lam), v) && ExactTable(w, raw)
    requires KiRange(myKi) && KiRange(oppKi) && 1 <= turn <= TURN_LIMIT
    ensures raw(myKi, oppKi, turn) == InUnits(w, v(myKi, oppKi, turn))
    ensures forall x, y ::
      (Saddle(StageMatrix(myKi, oppKi, turn, LamLeaves(lam), v), x, y, v(myKi, oppKi, turn), 0.0)
       ==> Saddle(StageMatrix(myKi, oppKi, turn, w, raw), x, y, raw(myKi, oppKi, turn), 0.0))
    decreases TURN_LIMIT - turn
  {
    hide StageMatrix, Saddle, AffineMat, InUnits, Span;
    if turn < TURN_LIMIT {
      forall a, b | KiRange(a) && KiRange(b) ensures raw(a, b, turn + 1) == InUnits(w, v(a, b, turn + 1)) {
        AffineInvariance(w, lam, v, raw, a, b, turn + 1);
      }
    }
    var stage, rawStage := StageMatrix(myKi, oppKi, turn, LamLeaves(lam), v), StageMatrix(myKi, oppKi, turn, w, raw);
    StageAffine(myKi, oppKi, turn, w, lam, v, raw);
    StageShape(myKi, oppKi, turn, w, raw);
    var value := v(myKi, oppKi, turn);
    forall x, y | Saddle(stage, x, y, value, 0.0) ensures Saddle(rawStage, x, y, InUnits(w, value), 0.0) {
      SaddleInUnits(stage, x, y, value, w);
    }
    var x, y :| Saddle(stage, x, y, value, 0.0);
    SameValue(rawStage, |AffordableActions(myKi)|, |AffordableActions(oppKi)|, raw(myKi, oppKi, turn),
              InUnits(w, value));
  }

  /** With the exact solver the solved round is such a table, for any leaves. */
  lemma ExactSolverExactTable(solve: Mat -> Solution, w: Leaves)
    requires LpContract(solve)
    ensures ExactTable(w, Values(LinearProgram(solve), w))
  {
    hide Value, Saddle;
    var s := LinearProgram(solve);
    forall a, b, t | KiRange(a) && KiRange(b) && 1 <= t <= TURN_LIMIT
      ensures IsValue(StageMatrix(a, b, t, w, Values(s, w)), Values(s, w)(a, b, t))
    {
      ValueUnfolds(s, w, a, b, t);
      StageShape(a, b, t, w, Values(s, w));
      AffordableCases(a);
      AffordableCases(b);
      var m := StageMatrix(a, b, t, w, Values(s, w));
      assert Saddle(m, solve(m).row, solve(m).col, solve(m).value, 0.0);
    }
  }
}
