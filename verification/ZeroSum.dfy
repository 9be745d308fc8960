/** The solver facade: degenerate shapes directly, then the exact linear program
    or the regret-matching loop. */
module ZeroSum {
  import opened Vectors
  import opened MatrixGame
  import opened RegretMatching

  /** Which engine backs the facade. The linear program is an outside library, so
      it enters as an arbitrary function from matrices to solutions. */
  datatype Solver = LinearProgram(solve: Mat -> Solution) | RegretLoop(iters: nat)

  datatype RowSolution = RowSolution(row: Vec, value: real)

  /** What is expected of the linear program: on every game, an exact saddle point. */
  ghost predicate LpContract(solve: Mat -> Solution) {
    forall a, n, m :: Game(a, n, m) ==>
      && |solve(a).row| == n && |solve(a).col| == m
      && Saddle(a, solve(a).row, solve(a).col, solve(a).value, 0.0)
  }

  /** The loop runs at least once; the linear program meets its contract. */
  ghost predicate Sound(s: Solver) {
    match s
    case LinearProgram(solve) => LpContract(solve)
    case RegretLoop(iters) => iters > 0
  }

  /** d bounds the error of the solver on every unit-payoff game of at most ten
      rows and columns together: zero for the linear program, of the order of
      one over the square root of the number of iterations for the loop. */
  ghost predicate Accurate(s: Solver, d: real) {
    && d >= 0.0 && Sound(s)
    && (s.RegretLoop? ==> s.iters as real * (d * d) >= 20.0)
  }

  lemma AccurateIsSound(s: Solver, d: real)
    requires Accurate(s, d)
    ensures Sound(s) && d >= 0.0
  {}

  /** The default fifty thousand iterations leave an error of at most 0.02. */
  lemma DefaultIterations()
    ensures Accurate(RegretLoop(50000), 0.02)
  {
    assert 50000 as real * (0.02 * 0.02) == 20.0;
  }

  /** Index of the first largest entry. */
  function ArgMax(x: Vec): (k: nat)
    requires x != []
    ensures k < |x| && (forall i :: 0 <= i < |x| ==> x[i] <= x[k]) && (forall i :: 0 <= i < k ==> x[i] < x[k])
    decreases |x|
  {
    if |x| == 1 then 0 else
      var k := ArgMax(x[..|x| - 1]);
      if x[|x| - 1] > x[k] then |x| - 1 else k
  }

  lemma FirstLargest(x: Vec, k: nat)
    requires k < |x| && (forall i :: 0 <= i < |x| ==> x[i] <= x[k]) && (forall i :: 0 <= i < k ==> x[i] < x[k])
    ensures k == ArgMax(x)
  {
    var best := ArgMax(x);
    assert x[best] <= x[k] <= x[best];
  }

  function ZeroSumSolution(a: Mat, n: nat, m: nat, s: Solver): RowSolution
    requires Game(a, n, m)
  {
    if n == 1 then RowSolution([1.0], Min(a[0]))
    else if m == 1 then
      var c := Column(a, 0);
      RowSolution(Pure(n, ArgMax(c)), c[ArgMax(c)])
    else match s
      case LinearProgram(solve) => RowSolution(solve(a).row, solve(a).value)
      case RegretLoop(iters) => RowSolution(Solve(a, n, m, iters).row, Solve(a, n, m, iters).value)
  }

  method SolveZeroSum(payoff: Mat, s: Solver) returns (r: RowSolution)
    requires payoff != [] && payoff[0] != [] && Shape(payoff, |payoff|, |payoff[0]|)
    ensures r == ZeroSumSolution(payoff, |payoff|, |payoff[0]|, s)
  {
    var n, m := |payoff|, |payoff[0]|;
    if n == 1 {
      return RowSolution([1.0], Min(payoff[0]));
    }
    if m == 1 {
      var best := 0;
      for i := 1 to n
        invariant 0 <= best < i
        invariant forall k :: 0 <= k < i ==> payoff[k][0] <= payoff[best][0]
        invariant forall k :: 0 <= k < best ==> payoff[k][0] < payoff[best][0]
      {
        if payoff[i][0] > payoff[best][0] {
          best := i;
        }
      }
      ghost var c := Column(payoff, 0);
      assert forall k :: 0 <= k < n ==> c[k] == payoff[k][0];
      FirstLargest(c, best);
      return RowSolution(Pure(n, best), payoff[best][0]);
    }
    match s
    case LinearProgram(solve) =>
      var sol := solve(payoff);
      return RowSolution(sol.row, sol.value);
    case RegretLoop(iters) =>
      var sol := SolveRegretMatching(payoff, iters);
      return RowSolution(sol.row, sol.value);
  }

  lemma OneRow(a: Mat, m: nat) returns (y: Vec)
    requires Game(a, 1, m)
    ensures |y| == m && Saddle(a, [1.0], y, Min(a[0]), 0.0)
  {
    var low := Min(a[0]);
    var k :| 0 <= k < m && a[0][k] == low;
    y := Pure(m, k);
    DotPure(m, k, a[0]);
    DotComm(a[0], y);
    forall j | 0 <= j < m ensures VecMat([1.0], a, m)[j] >= low {
      assert Column(a, j) == [a[0][j]];
      assert [1.0][1..] == [] && [a[0][j]][1..] == [];
      assert Dot([a[0][j]], [1.0]) == a[0][j] * 1.0 + Dot([a[0][j]][1..], [1.0][1..]);
    }
    assert Sum([1.0]) == 1.0 by { assert [1.0][1..] == []; }
  }

  lemma OneColumn(a: Mat, n: nat)
    requires Game(a, n, 1)
    ensures var c := Column(a, 0); Saddle(a, Pure(n, ArgMax(c)), [1.0], c[ArgMax(c)], 0.0)
  {
    var c := Column(a, 0);
    var k := ArgMax(c);
    var x := Pure(n, k);
    DotPure(n, k, c);
    DotComm(c, x);
    forall i | 0 <= i < n ensures MatVec(a, [1.0])[i] == c[i] {
      assert a[i] == [a[i][0]];
      assert a[i][1..] == [] && [1.0][1..] == [];
      assert Dot(a[i], [1.0]) == a[i][0] * 1.0 + Dot(a[i][1..], [1.0][1..]);
    }
    assert Sum([1.0]) == 1.0 by { assert [1.0][1..] == []; }
  }

  /** The facade always returns a mix over the rows. */
  lemma FacadeMix(a: Mat, n: nat, m: nat, s: Solver)
    requires Game(a, n, m) && Sound(s)
    ensures |ZeroSumSolution(a, n, m, s).row| == n && Simplex(ZeroSumSolution(a, n, m, s).row)
  {
    hide Dot;
    if n == 1 {
      assert Sum([1.0]) == 1.0 by { assert [1.0][1..] == []; }
    } else if m == 1 {
      DotPure(n, ArgMax(Column(a, 0)), Column(a, 0));
    }
  }

  /** Enough iterations for error d on games with n rows and m columns; any number of
      rows and columns for the linear program. */
  ghost predicate Enough(s: Solver, n: nat, m: nat, d: real) {
    && d >= 0.0 && Sound(s)
    && (s.RegretLoop? ==> s.iters as real * (d * d) >= 2.0 * (n + m) as real)
  }

  /** Whatever engine is behind it, the facade returns one side of a saddle point of
      every game, up to the solver's error d in units of the range of the payoffs. */
  lemma FacadeSolves(a: Mat, n: nat, m: nat, s: Solver, d: real, lo: real, hi: real) returns (y: Vec)
    requires Game(a, n, m) && Enough(s, n, m, d) && lo < hi && EntriesWithin(a, n, m, lo, hi)
    ensures var r := ZeroSumSolution(a, n, m, s);
      |r.row| == n && |y| == m && Saddle(a, r.row, y, r.value, Times(hi - lo, d))
  {
    hide Dot, Solve, Times;
    TimesNonNeg(hi - lo, d);
    if n == 1 {
      y := OneRow(a, m);
      SaddleWithin(a, [1.0], y, Min(a[0]), Times(hi - lo, d));
    } else if m == 1 {
      OneColumn(a, n);
      y := [1.0];
      var c := Column(a, 0);
      SaddleWithin(a, Pure(n, ArgMax(c)), y, c[ArgMax(c)], Times(hi - lo, d));
    } else {
      match s
      case LinearProgram(solve) =>
        y := solve(a).col;
        SaddleWithin(a, solve(a).row, y, solve(a).value, Times(hi - lo, d));
      case RegretLoop(iters) =>
        ConvergesInRange(a, n, m, iters, d, lo, hi);
        y := Solve(a, n, m, iters).col;
    }
  }

  lemma TimesNonNeg(p: real, q: real)
    requires 0.0 <= p && 0.0 <= q
    ensures 0.0 <= Times(p, q)
  {}

  lemma SaddleWithin(a: Mat, x: Vec, y: Vec, v: real, e: real)
    requires Saddle(a, x, y, v, 0.0) && e >= 0.0
    ensures Saddle(a, x, y, v, e)
  {}

  /** The instance for stage games: payoffs in [0, 1], at most ten rows and columns. */
  lemma FacadeSolvesStage(a: Mat, n: nat, m: nat, s: Solver, d: real) returns (y: Vec)
    requires Game(a, n, m) && n + m <= 10 && UnitPayoffs(a, n, m) && Accurate(s, d)
    ensures var r := ZeroSumSolution(a, n, m, s);
      |r.row| == n && |y| == m && Saddle(a, r.row, y, r.value, d)
  {
    hide Saddle, ZeroSumSolution;
    y := FacadeSolves(a, n, m, s, d, 0.0, 1.0);
    assert Times(1.0 - 0.0, d) == d;
  }

  /** The facade's value of a unit-payoff game is in [0, 1]. */
  lemma FacadeRange(a: Mat, n: nat, m: nat, s: Solver)
    requires Game(a, n, m) && UnitPayoffs(a, n, m) && Sound(s)
    ensures 0.0 <= ZeroSumSolution(a, n, m, s).value <= 1.0
  {
    hide Dot, Solve;
    if n == 1 {
      assert Min(a[0]) in a[0];
    } else if m == 1 {
      var c := Column(a, 0);
      assert c[ArgMax(c)] == a[ArgMax(c)][0];
    } else {
      match s
      case LinearProgram(solve) =>
        SaddleRange(a, solve(a).row, solve(a).col, solve(a).value);
      case RegretLoop(iters) =>
        var r := Solve(a, n, m, iters);
        assert r.value == Bilinear(r.row, a, r.col) by { SolveValue(a, n, m, iters); }
        UtilityRange(a, n, m, r.row, r.col);
        SimplexAverage(r.row, MatVec(a, r.col), 0.0, 1.0);
    }
  }

  lemma SolveValue(a: Mat, n: nat, m: nat, iters: nat)
    requires Game(a, n, m)
    ensures var r := Solve(a, n, m, iters); r.value == Bilinear(r.row, a, r.col)
  {}

  lemma SaddleRange(a: Mat, x: Vec, y: Vec, v: real)
    requires Saddle(a, x, y, v, 0.0) && UnitPayoffs(a, |x|, |y|)
    ensures 0.0 <= v <= 1.0
  {
    hide Dot;
    GuaranteeAgainstMix(x, a, y, v);
    ConcessionAgainstMix(x, a, y, v);
    UtilityRange(a, |x|, |y|, x, y);
    SimplexAverage(x, MatVec(a, y), 0.0, 1.0);
  }

  /** Two runs: the facade's values of a game and of the same game seen by the
      other player add up to exactly one, even when the values are only approximate. */
  lemma FacadeMirror(a: Mat, n: nat, m: nat, s: Solver)
    requires Game(a, n, m) && Sound(s)
    ensures Game(Complement(a, m), m, n)
    ensures ZeroSumSolution(Complement(a, m), m, n, s).value == 1.0 - ZeroSumSolution(a, n, m, s).value
  {
    hide Dot, Solve;
    var b := Complement(a, m);
    ComplementEntry(a, n, m);
    if n == 1 || m == 1 {
      SmallMirror(a, n, m, s);
    } else {
      match s
      case LinearProgram(solve) =>
        var p, q := solve(a), solve(b);
        ComplementSaddle(a, p.row, p.col, p.value, 0.0);
        ValueUnique(b, q.row, q.col, q.value, 0.0, p.col, p.row, 1.0 - p.value, 0.0);
      case RegretLoop(iters) =>
        MirroredSolve(a, n, m, iters);
    }
  }

  lemma SmallMirror(a: Mat, n: nat, m: nat, s: Solver)
    requires Game(a, n, m) && (n == 1 || m == 1)
    ensures Game(Complement(a, m), m, n)
    ensures ZeroSumSolution(Complement(a, m), m, n, s).value == 1.0 - ZeroSumSolution(a, n, m, s).value
  {
    hide Dot, Solve;
    var b := Complement(a, m);
    ComplementEntry(a, n, m);
    if m == 1 && n == 1 {
      assert Min(a[0]) == a[0][0] && Min(b[0]) == b[0][0];
    } else if n == 1 {
      var c := Column(b, 0);
      var k := ArgMax(c);
      assert forall j :: 0 <= j < m ==> c[j] == 1.0 - a[0][j];
      assert a[0][k] == 1.0 - c[k];
      forall j | 0 <= j < m ensures a[0][k] <= a[0][j] { assert c[j] <= c[k]; }
      MinIs(a[0], k);
    } else {
      var c := Column(a, 0);
      var k := ArgMax(c);
      assert b[0][k] == 1.0 - c[k];
      forall i | 0 <= i < n ensures b[0][k] <= b[0][i] { assert c[i] <= c[k] && b[0][i] == 1.0 - c[i]; }
      MinIs(b[0], k);
    }
  }
}
