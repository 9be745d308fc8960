/** Self-play by regret matching: both players repeat a matrix game, each mixing
    its rows in proportion to the positive regrets so far. */
module RegretMatching {
  import opened Vectors
  import opened MatrixGame

  /** The four running vectors of the loop. */
  datatype Regrets = Regrets(rowRegret: Vec, colRegret: Vec, rowSum: Vec, colSum: Vec)

  datatype Solution = Solution(row: Vec, col: Vec, value: real)

  /** Regrets after one more play: each option gains its utility minus the
      utility of the mix that was played. */
  function Updated(regret: Vec, util: Vec): (r: Vec)
    requires regret != [] && |regret| == |util|
    ensures |r| == |regret|
  {
    Add(regret, Shift(util, -Dot(Normalize(regret), util)))
  }

  function RowUtil(a: Mat, y: Vec): (r: Vec)
    requires Shape(a, |a|, |y|)
    ensures |r| == |a|
  {
    MatVec(a, y)
  }

  /** The column player is paid the negative of the matrix. */
  function ColUtil(a: Mat, x: Vec, m: nat): (r: Vec)
    requires Shape(a, |x|, m)
    ensures |r| == m
  {
    Scale(-1.0, VecMat(x, a, m))
  }

  ghost predicate Sized(s: Regrets, n: nat, m: nat) {
    |s.rowRegret| == |s.rowSum| == n && |s.colRegret| == |s.colSum| == m
  }

  function Step(a: Mat, n: nat, m: nat, s: Regrets): (r: Regrets)
    requires Game(a, n, m) && Sized(s, n, m)
    ensures Sized(r, n, m)
  {
    var x, y := Normalize(s.rowRegret), Normalize(s.colRegret);
    Regrets(
      Updated(s.rowRegret, RowUtil(a, y)),
      Updated(s.colRegret, ColUtil(a, x, m)),
      Add(s.rowSum, x),
      Add(s.colSum, y))
  }

  /** The running vectors after t plays. */
  function Run(a: Mat, n: nat, m: nat, t: nat): (r: Regrets)
    requires Game(a, n, m)
    ensures Sized(r, n, m)
  {
    if t == 0 then Regrets(Const(n, 0.0), Const(m, 0.0), Const(n, 0.0), Const(m, 0.0))
    else Step(a, n, m, Run(a, n, m, t - 1))
  }

  function Solve(a: Mat, n: nat, m: nat, iters: nat): (r: Solution)
    requires Game(a, n, m)
    ensures |r.row| == n && |r.col| == m && Simplex(r.row) && Simplex(r.col)
  {
    var s := Run(a, n, m, iters);
    var row, col := Normalize(s.rowSum), Normalize(s.colSum);
    Solution(row, col, Bilinear(row, a, col))
  }

  // ----- the potential argument -----

  function SumSq(x: Vec): real {
    Dot(x, x)
  }

  /** Positive regrets are orthogonal to the regret of the mix they induce. */
  lemma Orthogonal(regret: Vec, util: Vec)
    requires regret != [] && |regret| == |util|
    ensures Dot(Clamped(regret), Shift(util, -Dot(Normalize(regret), util))) == 0.0
  {
    hide Dot, Scale, Shift;
    var c := Clamped(regret);
    if Sum(c) <= 0.0 {
      NothingPositive(c, Shift(util, -Dot(Normalize(regret), util)));
    } else {
      AverageUtility(c, util, Sum(c));
      OwnAverage(c, util, Dot(Normalize(regret), util));
    }
  }

  lemma NothingPositive(c: Vec, e: Vec)
    requires |c| == |e| && NonNeg(c) && Sum(c) <= 0.0
    ensures Dot(c, e) == 0.0
  {
    hide Dot, Sum;
    SumNonNeg(c);
    assert c == Const(|c|, 0.0);
    DotComm(c, e);
    DotConst(e, 0.0);
  }

  /** Subtracting the average that the weights c themselves produce leaves nothing. */
  lemma OwnAverage(c: Vec, util: Vec, value: real)
    requires |c| == |util| && Times(value, Sum(c)) == Dot(c, util)
    ensures Dot(c, Shift(util, -value)) == 0.0
  {
    hide Dot, Sum, Shift, Times;
    ShiftedDot(c, util, -value);
    TimesNegative(value, Sum(c));
  }

  lemma ShiftedDot(c: Vec, util: Vec, v: real)
    requires |c| == |util|
    ensures Dot(c, Shift(util, v)) == Dot(c, util) + Times(v, Sum(c))
  {
    DotShift(c, util, v);
  }

  lemma TimesNegative(v: real, t: real)
    ensures Times(-v, t) == -Times(v, t)
  {}

  lemma AverageUtility(c: Vec, util: Vec, total: real)
    requires |c| == |util| && total > 0.0
    ensures Times(Dot(Scale(1.0 / total, c), util), total) == Dot(c, util)
  {
    hide Dot, Scale;
    var x := Scale(1.0 / total, c);
    DotComm(x, util);
    DotScale(util, 1.0 / total, c);
    DotComm(c, util);
    Cancel(total, Dot(c, util), Dot(x, util));
  }

  lemma Cancel(total: real, d: real, value: real)
    requires total > 0.0 && value == 1.0 / total * d
    ensures Times(value, total) == d
  {
    assert value == d / total;
    assert d / total * total == d;
  }

  /** Per option: a step of size at most one raises the squared positive regret
      by at most twice the inner product plus one. */
  lemma SquareStep(r: real, s: real)
    requires -1.0 <= s <= 1.0
    ensures PositivePart(r + s) * PositivePart(r + s)
         <= PositivePart(r) * PositivePart(r) + 2.0 * (PositivePart(r) * s) + 1.0
  {
    var p := PositivePart(r);
    assert PositivePart(r + s) * PositivePart(r + s) <= (p + s) * (p + s) by {
      if r + s > 0.0 {
        SquareMono(r + s, p + s);
      } else {
        SquareNonNeg(p + s);
      }
    }
    assert (p + s) * (p + s) == p * p + 2.0 * (p * s) + s * s;
    UnitSquare(s);
  }

  lemma SquareMono(u: real, v: real)
    requires 0.0 <= u <= v
    ensures u * u <= v * v
  {}

  lemma SquareNonNeg(u: real)
    ensures u * u >= 0.0
  {}

  lemma UnitSquare(s: real)
    requires -1.0 <= s <= 1.0
    ensures s * s <= 1.0
  {
    if s >= 0.0 { SquareMono(s, 1.0); } else { SquareMono(-s, 1.0); assert s * s == (-s) * (-s); }
  }

  lemma {:induction false} PotentialStep(r: Vec, s: Vec)
    requires |r| == |s| && Within(s, -1.0, 1.0)
    ensures SumSq(Clamped(Add(r, s))) <= SumSq(Clamped(r)) + 2.0 * Dot(Clamped(r), s) + |r| as real
  {
    if r != [] {
      SquareStep(r[0], s[0]);
      PotentialStep(r[1..], s[1..]);
      assert Clamped(Add(r, s))[1..] == Clamped(Add(r[1..], s[1..]));
      assert Clamped(r)[1..] == Clamped(r[1..]);
    }
  }

  /** One play raises the sum of squared positive regrets by at most the number
      of options, whatever the other player does. */
  lemma PlayRaisesPotential(regret: Vec, util: Vec, lo: real)
    requires regret != [] && |regret| == |util| && Within(util, lo, lo + 1.0)
    ensures SumSq(Clamped(Updated(regret, util))) <= SumSq(Clamped(regret)) + |regret| as real
  {
    hide Dot, SumSq, Normalize;
    var x := Normalize(regret);
    SimplexAverage(x, util, lo, lo + 1.0);
    var s := Shift(util, -Dot(x, util));
    Orthogonal(regret, util);
    PotentialStep(regret, s);
  }

  ghost predicate UnitPayoffs(a: Mat, n: nat, m: nat)
    requires Shape(a, n, m)
  {
    EntriesWithin(a, n, m, 0.0, 1.0)
  }

  lemma UtilityRange(a: Mat, n: nat, m: nat, x: Vec, y: Vec)
    requires Game(a, n, m) && UnitPayoffs(a, n, m)
    requires |x| == n && Simplex(x) && |y| == m && Simplex(y)
    ensures Within(RowUtil(a, y), 0.0, 1.0) && Within(ColUtil(a, x, m), -1.0, 0.0)
  {
    hide Dot;
    forall i | 0 <= i < n ensures 0.0 <= RowUtil(a, y)[i] <= 1.0 {
      DotComm(a[i], y);
      SimplexAverage(y, a[i], 0.0, 1.0);
    }
    forall j | 0 <= j < m ensures -1.0 <= ColUtil(a, x, m)[j] <= 0.0 {
      var c := Column(a, j);
      DotComm(c, x);
      SimplexAverage(x, c, 0.0, 1.0);
    }
  }

  lemma StepRaisesPotential(a: Mat, n: nat, m: nat, s: Regrets)
    requires Game(a, n, m) && UnitPayoffs(a, n, m) && Sized(s, n, m)
    ensures SumSq(Clamped(Step(a, n, m, s).rowRegret)) <= SumSq(Clamped(s.rowRegret)) + n as real
    ensures SumSq(Clamped(Step(a, n, m, s).colRegret)) <= SumSq(Clamped(s.colRegret)) + m as real
  {
    hide Dot, SumSq, Normalize, Updated;
    var x, y := Normalize(s.rowRegret), Normalize(s.colRegret);
    UtilityRange(a, n, m, x, y);
    PlayRaisesPotential(s.rowRegret, RowUtil(a, y), 0.0);
    PlayRaisesPotential(s.colRegret, ColUtil(a, x, m), -1.0);
  }

  /** After t plays the squared positive regrets sum to at most t times the
      number of options, for each player. */
  lemma {:induction false} RegretBound(a: Mat, n: nat, m: nat, t: nat)
    requires Game(a, n, m) && UnitPayoffs(a, n, m)
    ensures SumSq(Clamped(Run(a, n, m, t).rowRegret)) <= t as real * n as real
    ensures SumSq(Clamped(Run(a, n, m, t).colRegret)) <= t as real * m as real
  {
    hide SumSq, Step, Clamped;
    if t == 0 {
      ZeroPotential(n);
      ZeroPotential(m);
    } else {
      RegretBound(a, n, m, t - 1);
      StepRaisesPotential(a, n, m, Run(a, n, m, t - 1));
      OneMore(t, n);
      OneMore(t, m);
    }
  }

  lemma OneMore(t: nat, n: nat)
    requires t > 0
    ensures (t - 1) as real * n as real + n as real == t as real * n as real
  {
    assert (t - 1) as real == t as real - 1.0;
  }

  lemma ZeroPotential(n: nat)
    ensures SumSq(Clamped(Const(n, 0.0))) == 0.0
  {
    var z := Const(n, 0.0);
    assert Clamped(z) == z;
    DotConst(z, 0.0);
  }

  // ----- what the regrets measure -----

  /** Total payoff actually collected by the row player over t plays. */
  function Played(a: Mat, n: nat, m: nat, t: nat): real
    requires Game(a, n, m)
  {
    if t == 0 then 0.0 else
      var s := Run(a, n, m, t - 1);
      Played(a, n, m, t - 1) + Bilinear(Normalize(s.rowRegret), a, Normalize(s.colRegret))
  }

  lemma MatVecAdd(a: Mat, y: Vec, z: Vec)
    requires |y| == |z| && Shape(a, |a|, |y|)
    ensures MatVec(a, Add(y, z)) == Add(MatVec(a, y), MatVec(a, z))
  {
    hide Dot;
    forall i | 0 <= i < |a| ensures MatVec(a, Add(y, z))[i] == Add(MatVec(a, y), MatVec(a, z))[i] {
      DotAdd(a[i], y, z);
    }
  }

  lemma MatVecZero(a: Mat, m: nat)
    requires Shape(a, |a|, m)
    ensures MatVec(a, Const(m, 0.0)) == Const(|a|, 0.0)
  {
    hide Dot;
    forall i | 0 <= i < |a| ensures MatVec(a, Const(m, 0.0))[i] == 0.0 {
      DotConst(a[i], 0.0);
    }
  }

  /** Regret of a row: what it would have earned against all the columns played,
      minus what was earned. Regret of a column: what was conceded, minus what
      it would have conceded. */
  ghost predicate Ledger(a: Mat, n: nat, m: nat, s: Regrets, played: real)
    requires Game(a, n, m) && Sized(s, n, m)
  {
    && s.rowRegret == Shift(MatVec(a, s.colSum), -played)
    && s.colRegret == Shift(Scale(-1.0, VecMat(s.rowSum, a, m)), played)
  }

  lemma LedgerStep(a: Mat, n: nat, m: nat, s: Regrets, played: real)
    requires Game(a, n, m) && Sized(s, n, m) && Ledger(a, n, m, s, played)
    ensures var x, y := Normalize(s.rowRegret), Normalize(s.colRegret);
      Ledger(a, n, m, Step(a, n, m, s), played + Bilinear(x, a, y))
  {
    hide Dot, Normalize;
    var x, y := Normalize(s.rowRegret), Normalize(s.colRegret);
    MatVecAdd(a, s.colSum, y);
    MatVecAdd(Transpose(a, m), s.rowSum, x);
    Exchange(x, a, y);
    DotScale(y, -1.0, VecMat(x, a, m));
  }

  lemma {:induction false} RegretLedger(a: Mat, n: nat, m: nat, t: nat)
    requires Game(a, n, m)
    ensures Ledger(a, n, m, Run(a, n, m, t), Played(a, n, m, t))
  {
    hide Dot, Normalize, Step;
    if t == 0 {
      MatVecZero(a, m);
      MatVecZero(Transpose(a, m), n);
    } else {
      hide Ledger;
      RegretLedger(a, n, m, t - 1);
      LedgerStep(a, n, m, Run(a, n, m, t - 1), Played(a, n, m, t - 1));
    }
  }

  lemma OnePlayCounted(sum: Vec, x: Vec, t: nat)
    requires |sum| == |x| && NonNeg(sum) && Sum(sum) == t as real && Simplex(x)
    ensures NonNeg(Add(sum, x)) && Sum(Add(sum, x)) == (t + 1) as real
  {
    SumAdd(sum, x);
  }

  lemma {:induction false} PlaysCounted(a: Mat, n: nat, m: nat, t: nat)
    requires Game(a, n, m)
    ensures var s := Run(a, n, m, t);
      && NonNeg(s.rowSum) && Sum(s.rowSum) == t as real
      && NonNeg(s.colSum) && Sum(s.colSum) == t as real
  {
    hide Normalize, Sum, Add, RowUtil, ColUtil, Updated;
    if t == 0 {
      SumConst(n, 0.0);
      SumConst(m, 0.0);
    } else {
      PlaysCounted(a, n, m, t - 1);
      var s := Run(a, n, m, t - 1);
      OnePlayCounted(s.rowSum, Normalize(s.rowRegret), t - 1);
      OnePlayCounted(s.colSum, Normalize(s.colRegret), t - 1);
    }
  }

  lemma AverageOf(sum: Vec, t: nat)
    requires t > 0 && sum != [] && NonNeg(sum) && Sum(sum) == t as real
    ensures Normalize(sum) == Scale(1.0 / t as real, sum)
  {
    assert Clamped(sum) == sum;
  }

  lemma MatVecScale(a: Mat, c: real, y: Vec)
    requires Shape(a, |a|, |y|)
    ensures MatVec(a, Scale(c, y)) == Scale(c, MatVec(a, y))
  {
    hide Dot;
    forall i | 0 <= i < |a| ensures MatVec(a, Scale(c, y))[i] == Scale(c, MatVec(a, y))[i] {
      DotScale(a[i], c, y);
    }
  }

  lemma ExtremesOfRegret(u: Vec, w: Vec, t: real, played: real)
    requires u != [] && w != [] && t > 0.0
    ensures t * (Max(Scale(1.0 / t, u)) - Min(Scale(1.0 / t, w)))
         == Max(Shift(u, -played)) + Max(Shift(Scale(-1.0, w), played))
  {
    hide Max, Min, Scale, Shift;
    MaxScaled(u, 1.0 / t);
    MinScaled(w, 1.0 / t);
    MaxShifted(u, -played);
    MaxNegated(w, played);
    Rescale(t, Max(u), Min(w));
  }

  lemma Rescale(t: real, p: real, q: real)
    requires t > 0.0
    ensures t * (1.0 / t * p - 1.0 / t * q) == p - q
  {
    assert 1.0 / t * p == p / t && 1.0 / t * q == q / t;
    assert t * (p / t) == p && t * (q / t) == q;
  }

  lemma MaxIs(x: Vec, k: nat)
    requires k < |x| && forall i :: 0 <= i < |x| ==> x[i] <= x[k]
    ensures Max(x) == x[k]
  {}

  lemma MinIs(x: Vec, k: nat)
    requires k < |x| && forall i :: 0 <= i < |x| ==> x[k] <= x[i]
    ensures Min(x) == x[k]
  {}

  lemma ScaledOrder(c: real, u: Vec, i: nat, k: nat)
    requires i < |u| && k < |u| && c > 0.0 && u[i] <= u[k]
    ensures Scale(c, u)[i] <= Scale(c, u)[k]
  {
    MulMono(c, u[i], u[k]);
  }

  lemma MaxScaled(u: Vec, c: real)
    requires u != [] && c > 0.0
    ensures Max(Scale(c, u)) == c * Max(u)
  {
    hide Max, Scale;
    var top := Max(u);
    var k :| 0 <= k < |u| && u[k] == top;
    ScaledAt(c, u, k);
    forall i | 0 <= i < |u| ensures Scale(c, u)[i] <= Scale(c, u)[k] {
      ScaledOrder(c, u, i, k);
    }
    MaxIs(Scale(c, u), k);
  }

  lemma MinScaled(u: Vec, c: real)
    requires u != [] && c > 0.0
    ensures Min(Scale(c, u)) == c * Min(u)
  {
    hide Min, Scale;
    var low := Min(u);
    var k :| 0 <= k < |u| && u[k] == low;
    ScaledAt(c, u, k);
    forall i | 0 <= i < |u| ensures Scale(c, u)[k] <= Scale(c, u)[i] {
      ScaledOrder(c, u, k, i);
    }
    MinIs(Scale(c, u), k);
  }

  lemma MaxShifted(u: Vec, c: real)
    requires u != []
    ensures Max(Shift(u, c)) == Max(u) + c
  {
    var top := Max(u);
    var k :| 0 <= k < |u| && u[k] == top;
    assert forall i :: 0 <= i < |u| ==> Shift(u, c)[i] == u[i] + c;
    MaxIs(Shift(u, c), k);
  }

  lemma MaxNegated(w: Vec, c: real)
    requires w != []
    ensures Max(Shift(Scale(-1.0, w), c)) == c - Min(w)
  {
    var low := Min(w);
    var k :| 0 <= k < |w| && w[k] == low;
    assert forall i :: 0 <= i < |w| ==> Shift(Scale(-1.0, w), c)[i] == c - w[i];
    MaxIs(Shift(Scale(-1.0, w), c), k);
  }

  lemma GapOfAverages(a: Mat, row: Vec, col: Vec, c: real)
    requires Game(a, |row|, |col|)
    ensures MatVec(a, col) != [] && VecMat(row, a, |col|) != []
    ensures MaxminGap(a, Scale(c, row), Scale(c, col))
         == Max(Scale(c, MatVec(a, col))) - Min(Scale(c, VecMat(row, a, |col|)))
  {
    hide Dot, Max, Min, Scale;
    MatVecScale(a, c, col);
    MatVecScale(Transpose(a, |col|), c, row);
  }

  /** The equilibrium gap of the averaged strategies is exactly the two largest
      regrets divided by the number of plays. */
  lemma GapIsRegret(a: Mat, n: nat, m: nat, t: nat)
    requires Game(a, n, m) && t > 0
    ensures var s, r := Run(a, n, m, t), Solve(a, n, m, t);
      t as real * MaxminGap(a, r.row, r.col) == Max(s.rowRegret) + Max(s.colRegret)
  {
    hide Dot, Max, Min, Run, Normalize, Shift, Scale, Bilinear, MaxminGap, MatVec;
    var s := Run(a, n, m, t);
    PlaysCounted(a, n, m, t);
    RegretLedger(a, n, m, t);
    AverageOf(s.rowSum, t);
    AverageOf(s.colSum, t);
    GapOfAverages(a, s.rowSum, s.colSum, 1.0 / t as real);
    ExtremesOfRegret(MatVec(a, s.colSum), VecMat(s.rowSum, a, m), t as real, Played(a, n, m, t));
  }

  /** The reported value lies between what the row mix guarantees and what the
      column mix concedes, so the gap bounds the error on both sides. */
  lemma ValueBetween(a: Mat, n: nat, m: nat, t: nat, d: real)
    requires Game(a, n, m)
    requires var r := Solve(a, n, m, t); MaxminGap(a, r.row, r.col) <= d
    ensures var r := Solve(a, n, m, t);
      && Min(VecMat(r.row, a, m)) <= r.value <= Max(MatVec(a, r.col))
      && Saddle(a, r.row, r.col, r.value, d)
  {
    hide Dot, Run, Normalize;
    var r := Solve(a, n, m, t);
    GuaranteeAgainstMix(r.row, a, r.col, Min(VecMat(r.row, a, m)));
    ConcessionAgainstMix(r.row, a, r.col, Max(MatVec(a, r.col)));
  }

  // ----- convergence -----

  lemma {:induction false} SumSqNonNeg(x: Vec)
    ensures SumSq(x) >= 0.0
  {
    if x != [] {
      SquareNonNeg(x[0]);
      SumSqNonNeg(x[1..]);
    }
  }

  lemma {:induction false} EntrySquare(x: Vec, k: nat)
    requires k < |x|
    ensures x[k] * x[k] <= SumSq(x)
  {
    if k == 0 {
      SumSqNonNeg(x[1..]);
    } else {
      SquareNonNeg(x[0]);
      EntrySquare(x[1..], k - 1);
    }
  }

  lemma MaxSquare(r: Vec, b: real)
    requires r != [] && SumSq(Clamped(r)) <= b
    ensures PositivePart(Max(r)) * PositivePart(Max(r)) <= b
  {
    hide SumSq;
    var k :| 0 <= k < |r| && r[k] == Max(r);
    EntrySquare(Clamped(r), k);
  }

  lemma GapNonNeg(a: Mat, x: Vec, y: Vec)
    requires Game(a, |x|, |y|) && Simplex(x) && Simplex(y)
    ensures MaxminGap(a, x, y) >= 0.0
  {
    hide Dot;
    GuaranteeAgainstMix(x, a, y, Min(VecMat(x, a, |y|)));
    ConcessionAgainstMix(x, a, y, Max(MatVec(a, y)));
  }

  lemma MulStrict(t: real, p: real, q: real)
    requires t > 0.0 && p > q
    ensures t * p > t * q
  {}

  lemma CancelFactor(t: real, p: real, q: real)
    requires t > 0.0 && t * p <= t * q
    ensures p <= q
  {
    if p > q {
      MulStrict(t, p, q);
      assert false;
    }
  }

  lemma SquareOfSum(p: real, q: real)
    ensures (p + q) * (p + q) <= 2.0 * (p * p) + 2.0 * (q * q)
  {
    SquareNonNeg(p - q);
    assert (p - q) * (p - q) == p * p - 2.0 * (p * q) + q * q;
    assert (p + q) * (p + q) == p * p + 2.0 * (p * q) + q * q;
  }

  lemma SquareScaled(t: real, g: real)
    ensures (t * g) * (t * g) == t * (t * (g * g))
  {}

  lemma SquareBelow(u: real, p: real, q: real)
    requires 0.0 <= u <= p + q
    ensures u * u <= 2.0 * (p * p) + 2.0 * (q * q)
  {
    SquareMono(u, p + q);
    SquareOfSum(p, q);
  }

  lemma DivideOut(t: real, s: real, n: real, m: real)
    requires t > 0.0 && t * s <= 2.0 * (t * n) + 2.0 * (t * m)
    ensures s <= 2.0 * (n + m)
  {
    assert t * (2.0 * (n + m)) == 2.0 * (t * n) + 2.0 * (t * m);
    CancelFactor(t, s, 2.0 * (n + m));
  }

  lemma SquaresOfSum(t: real, g: real, p: real, q: real, n: real, m: real)
    requires t > 0.0 && g >= 0.0 && p >= 0.0 && q >= 0.0 && t * g <= p + q
    requires p * p <= t * n && q * q <= t * m
    ensures t * (g * g) <= 2.0 * (n + m)
  {
    assert t * (t * (g * g)) <= 2.0 * (t * n) + 2.0 * (t * m) by {
      MulMono(t, 0.0, g);
      SquareBelow(t * g, p, q);
      SquareScaled(t, g);
    }
    DivideOut(t, t * (g * g), n, m);
  }

  /** Regret matching on payoffs in [0, 1]: after t >= 1 plays the squared gap is
      at most 2 (n + m) / t, and the averaged strategies form a saddle point up
      to any d with t d^2 >= 2 (n + m). */
  lemma Converges(a: Mat, n: nat, m: nat, t: nat, d: real)
    requires Game(a, n, m) && UnitPayoffs(a, n, m) && t > 0
    requires d >= 0.0 && t as real * (d * d) >= 2.0 * (n + m) as real
    ensures var r := Solve(a, n, m, t);
      && MaxminGap(a, r.row, r.col) <= d
      && t as real * (MaxminGap(a, r.row, r.col) * MaxminGap(a, r.row, r.col)) <= 2.0 * (n + m) as real
      && Saddle(a, r.row, r.col, r.value, d)
  {
    hide Dot, Run, Normalize, Max, Min, SumSq, MaxminGap;
    var s, r := Run(a, n, m, t), Solve(a, n, m, t);
    var g, tr := MaxminGap(a, r.row, r.col), t as real;
    RegretBound(a, n, m, t);
    GapIsRegret(a, n, m, t);
    GapNonNeg(a, r.row, r.col);
    MaxSquare(s.rowRegret, tr * n as real);
    MaxSquare(s.colRegret, tr * m as real);
    SquaresOfSum(tr, g, PositivePart(Max(s.rowRegret)), PositivePart(Max(s.colRegret)), n as real, m as real);
    GapBelow(tr, g, d);
    ValueBetween(a, n, m, t, d);
  }

  lemma SquareStrict(u: real, v: real)
    requires 0.0 <= u < v
    ensures u * u < v * v
  {
    MulStrict(v - u, v + u, 0.0);
    assert (v - u) * (v + u) == v * v - u * u;
  }

  lemma GapBelow(t: real, g: real, d: real)
    requires t > 0.0 && g >= 0.0 && d >= 0.0 && t * (g * g) <= t * (d * d)
    ensures g <= d
  {
    CancelFactor(t, g * g, d * d);
    if g > d {
      SquareStrict(d, g);
      assert false;
    }
  }

  lemma PositiveSquare(d: real) returns (dd: real)
    requires d > 0.0
    ensures dd == d * d && dd > 0.0
  {
    dd := PositiveProduct(d, d);
  }

  lemma PositiveProduct(p: real, q: real) returns (pq: real)
    requires p > 0.0 && q > 0.0
    ensures pq == p * q && pq > 0.0
  {
    pq := p * q;
  }

  lemma EnoughIterations(size: real, dd: real) returns (t: nat)
    requires size >= 0.0 && dd > 0.0
    ensures t > 0 && t as real * dd >= size
  {
    var q := size / dd;
    assert q * dd == size;
    assert q >= 0.0;
    t := q.Floor + 1;
    MulMono(dd, q, t as real);
  }

  /** Consequence: every game with payoffs in [0, 1] has a saddle point up to any
      error one cares to name, and this loop finds it. */
  lemma ApproximateMinimax(a: Mat, n: nat, m: nat, d: real)
    requires Game(a, n, m) && UnitPayoffs(a, n, m) && d > 0.0
    ensures exists t: nat :: t > 0 && var r := Solve(a, n, m, t); Saddle(a, r.row, r.col, r.value, d)
  {
    hide Solve, Saddle, MaxminGap;
    var dd := PositiveSquare(d);
    var t := EnoughIterations(2.0 * (n + m) as real, dd);
    Converges(a, n, m, t, d);
  }

  // ----- payoffs in other units -----

  /** The same plays with every regret multiplied by a unit. */
  function Magnified(unit: real, s: Regrets): Regrets {
    Regrets(Scale(unit, s.rowRegret), Scale(unit, s.colRegret), s.rowSum, s.colSum)
  }

  lemma ClampedScale(unit: real, w: Vec)
    requires unit > 0.0
    ensures Clamped(Scale(unit, w)) == Scale(unit, Clamped(w))
  {
    forall i | 0 <= i < |w| ensures Clamped(Scale(unit, w))[i] == Scale(unit, Clamped(w))[i] {
      PositiveScale(unit, w[i]);
    }
  }

  lemma PositiveScale(unit: real, w: real)
    requires unit > 0.0
    ensures PositivePart(unit * w) == unit * PositivePart(w)
  {
    if w > 0.0 { MulStrict(unit, w, 0.0); } else { MulMono(unit, w, 0.0); }
  }

  lemma NormalizeCases(w: Vec)
    requires w != []
    ensures var c := Clamped(w);
      Normalize(w) == if Sum(c) <= 0.0 then Const(|w|, 1.0 / |w| as real) else Scale(1.0 / Sum(c), c)
  {
    hide Sum, Clamped, Scale;
  }

  /** The mix induced by regrets does not depend on their unit. */
  lemma NormalizeScale(unit: real, w: Vec)
    requires unit > 0.0 && w != []
    ensures Normalize(Scale(unit, w)) == Normalize(w)
  {
    hide Sum, Scale, Clamped, Normalize;
    NormalizeCases(w);
    NormalizeCases(Scale(unit, w));
    ClampedScale(unit, w);
    ScaledShares(unit, Clamped(w));
  }

  lemma ScaledShares(unit: real, c: Vec)
    requires unit > 0.0
    ensures Sum(Scale(unit, c)) <= 0.0 <==> Sum(c) <= 0.0
    ensures Sum(c) > 0.0 ==> Scale(1.0 / Sum(Scale(unit, c)), Scale(unit, c)) == Scale(1.0 / Sum(c), c)
  {
    hide Sum, Scale;
    SumScale(unit, c);
    var total, total' := Sum(c), Sum(Scale(unit, c));
    SignScale(unit, total, total');
    if total > 0.0 {
      ScaleBack(unit, total, total', c);
    }
  }

  lemma SignScale(unit: real, total: real, total': real)
    requires unit > 0.0 && total' == unit * total
    ensures total' <= 0.0 <==> total <= 0.0
  {
    if total > 0.0 { MulStrict(unit, total, 0.0); } else { MulMono(unit, total, 0.0); }
  }

  lemma ScaleBack(unit: real, total: real, total': real, c: Vec)
    requires unit > 0.0 && total > 0.0 && total' > 0.0 && total' == unit * total
    ensures Scale(1.0 / total', Scale(unit, c)) == Scale(1.0 / total, c)
  {
    var x, y := Scale(1.0 / total', Scale(unit, c)), Scale(1.0 / total, c);
    forall i | 0 <= i < |c| ensures x[i] == y[i] {
      Cancelled(unit, total, total', c[i]);
    }
  }

  lemma Cancelled(unit: real, total: real, total': real, w: real)
    requires unit > 0.0 && total > 0.0 && total' > 0.0 && total' == unit * total
    ensures 1.0 / total' * (unit * w) == 1.0 / total * w
  {
    var q := InverseOfProduct(unit, total, total');
    assert 1.0 / total' * (unit * w) == 1.0 / total' * unit * w;
  }

  lemma InverseOfProduct(unit: real, total: real, total': real) returns (q: real)
    requires unit > 0.0 && total > 0.0 && total' > 0.0 && total' == unit * total
    ensures q == 1.0 / total' * unit == 1.0 / total
  {
    var p := 1.0 / total';
    q := p * unit;
    assert p * total' == 1.0;
    assert q * total == p * (unit * total);
  }

  lemma UpdatedScale(unit: real, regret: Vec, util: Vec)
    requires unit > 0.0 && regret != [] && |regret| == |util|
    ensures Updated(Scale(unit, regret), Scale(unit, util)) == Scale(unit, Updated(regret, util))
  {
    hide Dot, Normalize;
    var x := Normalize(regret);
    NormalizeScale(unit, regret);
    DotScale(x, unit, util);
    forall i | 0 <= i < |regret|
      ensures Updated(Scale(unit, regret), Scale(unit, util))[i] == Scale(unit, Updated(regret, util))[i]
    {
      Spread3(unit, regret[i], util[i], Dot(x, util));
    }
  }

  lemma Spread3(unit: real, r: real, u: real, v: real)
    ensures unit * r + (unit * u + -(unit * v)) == unit * (r + (u + -v))
  {}

  lemma AffineRowUtil(a: Mat, y: Vec, n: nat, base: real, unit: real)
    requires Game(a, n, |y|) && Sum(y) == 1.0
    ensures Game(AffineMat(a, base, unit), n, |y|)
    ensures RowUtil(AffineMat(a, base, unit), y) == Shift(Scale(unit, RowUtil(a, y)), base)
  {
    hide Dot, Sum;
    var b := AffineMat(a, base, unit);
    var p, q := RowUtil(b, y), Shift(Scale(unit, RowUtil(a, y)), base);
    forall i | 0 <= i < |a| ensures p[i] == q[i] {
      AffineDot(y, a[i], base, unit);
      DotComm(y, a[i]);
      DotComm(y, b[i]);
    }
  }

  lemma AffineColUtil(a: Mat, x: Vec, m: nat, base: real, unit: real)
    requires Game(a, |x|, m) && Sum(x) == 1.0
    ensures Game(AffineMat(a, base, unit), |x|, m)
    ensures ColUtil(AffineMat(a, base, unit), x, m) == Shift(Scale(unit, ColUtil(a, x, m)), -base)
  {
    hide Dot, Sum, AffineMat;
    AffineGame(a, |x|, m, base, unit);
    var b := AffineMat(a, base, unit);
    var p, q := ColUtil(b, x, m), Shift(Scale(unit, ColUtil(a, x, m)), -base);
    forall j | 0 <= j < m ensures p[j] == q[j] {
      AffineColumnUtility(a, x, m, j, base, unit);
      Negated(base, unit, VecMat(x, a, m)[j]);
    }
  }

  lemma AffineColumnUtility(a: Mat, x: Vec, m: nat, j: nat, base: real, unit: real)
    requires Game(a, |x|, m) && Sum(x) == 1.0 && j < m
    ensures Game(AffineMat(a, base, unit), |x|, m)
    ensures VecMat(x, AffineMat(a, base, unit), m)[j] == base + unit * VecMat(x, a, m)[j]
  {
    hide Dot, Sum, AffineMat, Shift, Scale;
    AffineGame(a, |x|, m, base, unit);
    AffineColumn(a, m, j, base, unit);
    AffineDot(x, Column(a, j), base, unit);
    DotComm(x, Column(a, j));
    DotComm(x, Column(AffineMat(a, base, unit), j));
    SameUnit(unit, Dot(x, Column(a, j)), VecMat(x, a, m)[j]);
  }

  lemma SameUnit(unit: real, p: real, q: real)
    requires p == q
    ensures unit * p == unit * q
  {}

  lemma Negated(base: real, unit: real, v: real)
    ensures -1.0 * (base + unit * v) == unit * (-1.0 * v) + -base
  {}

  lemma AffineStep(a: Mat, n: nat, m: nat, base: real, unit: real, s: Regrets)
    requires Game(a, n, m) && Sized(s, n, m) && unit > 0.0
    ensures Game(AffineMat(a, base, unit), n, m)
    ensures Step(AffineMat(a, base, unit), n, m, Magnified(unit, s)) == Magnified(unit, Step(a, n, m, s))
  {
    hide Dot, Normalize, Updated, RowUtil, ColUtil, AffineMat, Scale, Shift, Add;
    var x, y := Normalize(s.rowRegret), Normalize(s.colRegret);
    AffineRowUtil(a, y, n, base, unit);
    AffineColUtil(a, x, m, base, unit);
    NormalizeScale(unit, s.rowRegret);
    NormalizeScale(unit, s.colRegret);
    UpdatedShift(Scale(unit, s.rowRegret), Scale(unit, RowUtil(a, y)), base);
    UpdatedShift(Scale(unit, s.colRegret), Scale(unit, ColUtil(a, x, m)), -base);
    UpdatedScale(unit, s.rowRegret, RowUtil(a, y));
    UpdatedScale(unit, s.colRegret, ColUtil(a, x, m));
  }

  lemma NothingMagnified(unit: real, n: nat, m: nat)
    ensures var zero := Regrets(Const(n, 0.0), Const(m, 0.0), Const(n, 0.0), Const(m, 0.0));
      Magnified(unit, zero) == zero
  {
    assert Scale(unit, Const(n, 0.0)) == Const(n, 0.0) && Scale(unit, Const(m, 0.0)) == Const(m, 0.0);
  }

  lemma AffineGame(a: Mat, n: nat, m: nat, base: real, unit: real)
    requires Game(a, n, m)
    ensures Game(AffineMat(a, base, unit), n, m)
  {}

  /** Changing the units of the payoffs changes no play: the regrets are multiplied by
      the unit and the strategies summed up are the same. */
  lemma {:induction false} AffineRun(a: Mat, n: nat, m: nat, base: real, unit: real, t: nat)
    requires Game(a, n, m) && unit > 0.0
    ensures Game(AffineMat(a, base, unit), n, m)
    ensures Run(AffineMat(a, base, unit), n, m, t) == Magnified(unit, Run(a, n, m, t))
  {
    hide Step, AffineMat, Magnified;
    if t == 0 {
      NothingMagnified(unit, n, m);
      AffineGame(a, n, m, base, unit);
    } else {
      AffineRun(a, n, m, base, unit, t - 1);
      AffineStep(a, n, m, base, unit, Run(a, n, m, t - 1));
    }
  }

  lemma AffineSolve(a: Mat, n: nat, m: nat, base: real, unit: real, t: nat)
    requires Game(a, n, m) && unit > 0.0
    ensures Game(AffineMat(a, base, unit), n, m)
    ensures var r, r' := Solve(a, n, m, t), Solve(AffineMat(a, base, unit), n, m, t);
      r'.row == r.row && r'.col == r.col && r'.value == base + unit * r.value
  {
    hide Dot, Run, Normalize, MatVec, VecMat, AffineMat;
    AffineRun(a, n, m, base, unit, t);
    var r := Solve(a, n, m, t);
    AffineRowUtil(a, r.col, n, base, unit);
    AffineDot(r.row, RowUtil(a, r.col), base, unit);
  }

  /** The game with its payoffs moved from [lo, hi] to [0, 1]. */
  lemma UnitVersion(a: Mat, n: nat, m: nat, lo: real, hi: real) returns (b: Mat)
    requires Game(a, n, m) && lo < hi && EntriesWithin(a, n, m, lo, hi)
    ensures Game(b, n, m) && UnitPayoffs(b, n, m) && a == AffineMat(b, lo, hi - lo)
  {
    var span := hi - lo;
    b := seq(n, i requires 0 <= i < n => seq(m, j requires 0 <= j < m => (a[i][j] - lo) / span));
    forall i, j | 0 <= i < n && 0 <= j < m
      ensures 0.0 <= b[i][j] <= 1.0 && lo + span * b[i][j] == a[i][j]
    {
      UnitPart(a[i][j] - lo, span);
    }
    forall i | 0 <= i < n ensures AffineMat(b, lo, span)[i] == a[i] {
      forall j | 0 <= j < m ensures AffineMat(b, lo, span)[i][j] == a[i][j] {
        assert Scale(span, b[i])[j] == span * b[i][j];
      }
    }
  }

  lemma UnitPart(p: real, q: real)
    requires 0.0 <= p <= q && q > 0.0
    ensures 0.0 <= p / q <= 1.0 && q * (p / q) == p
  {}

  lemma SaddleMoved(a: Mat, b: Mat, x: Vec, y: Vec, v: real, d: real, base: real, unit: real, v': real, d': real)
    requires Saddle(a, x, y, v, d) && unit >= 0.0
    requires b == AffineMat(a, base, unit) && v' == base + unit * v && d' == unit * d
    ensures Saddle(b, x, y, v', d')
  {
    hide Saddle, AffineMat;
    AffineSaddle(a, x, y, v, d, base, unit);
  }

  /** For payoffs in any range the error is in proportion to the range. */
  lemma ConvergesInRange(a: Mat, n: nat, m: nat, t: nat, d: real, lo: real, hi: real)
    requires Game(a, n, m) && lo < hi && EntriesWithin(a, n, m, lo, hi) && t > 0
    requires d >= 0.0 && t as real * (d * d) >= 2.0 * (n + m) as real
    ensures var r := Solve(a, n, m, t); Saddle(a, r.row, r.col, r.value, Times(hi - lo, d))
  {
    hide Solve, AffineMat, Saddle, MaxminGap;
    var b := UnitVersion(a, n, m, lo, hi);
    var span := hi - lo;
    var r := Solve(b, n, m, t);
    Converges(b, n, m, t, d);
    AffineSolve(b, n, m, lo, span, t);
    SaddleMoved(b, a, r.row, r.col, r.value, d, lo, span, Solve(a, n, m, t).value, Times(hi - lo, d));
  }

  // ----- two runs on mirrored games -----

  function Swap(s: Regrets): Regrets {
    Regrets(s.colRegret, s.rowRegret, s.colSum, s.rowSum)
  }

  /** A constant added to every utility does not change a regret. */
  lemma UpdatedShift(regret: Vec, util: Vec, c: real)
    requires regret != [] && |regret| == |util|
    ensures Updated(regret, Shift(util, c)) == Updated(regret, util)
  {
    hide Dot, Normalize;
    MixShift(Normalize(regret), util, c);
  }

  lemma MirroredStep(a: Mat, n: nat, m: nat, s: Regrets)
    requires Game(a, n, m) && Sized(s, n, m)
    ensures Game(Complement(a, m), m, n)
    ensures Step(Complement(a, m), m, n, Swap(s)) == Swap(Step(a, n, m, s))
  {
    hide Dot, Normalize, Updated, MatVec;
    var b := Complement(a, m);
    ComplementEntry(a, n, m);
    var x, y := Normalize(s.rowRegret), Normalize(s.colRegret);
    ComplementUtilities(a, x, y);
    assert RowUtil(b, x) == Shift(ColUtil(a, x, m), 1.0);
    assert ColUtil(b, y, n) == Shift(RowUtil(a, y), -1.0);
    UpdatedShift(s.colRegret, ColUtil(a, x, m), 1.0);
    UpdatedShift(s.rowRegret, RowUtil(a, y), -1.0);
  }

  /** Running on the swapped game keeps, at every play, exactly the swapped
      running vectors. */
  lemma {:induction false} MirroredRun(a: Mat, n: nat, m: nat, t: nat)
    requires Game(a, n, m)
    ensures Game(Complement(a, m), m, n)
    ensures Run(Complement(a, m), m, n, t) == Swap(Run(a, n, m, t))
  {
    hide Step, Complement;
    ComplementEntry(a, n, m);
    if t > 0 {
      MirroredRun(a, n, m, t - 1);
      MirroredStep(a, n, m, Run(a, n, m, t - 1));
    }
  }

  /** The two players' solutions of mirrored games are each other's mirror image:
      strategies swapped, values adding to one. */
  lemma MirroredSolve(a: Mat, n: nat, m: nat, t: nat)
    requires Game(a, n, m)
    ensures Game(Complement(a, m), m, n)
    ensures var r, r' := Solve(a, n, m, t), Solve(Complement(a, m), m, n, t);
      r'.row == r.col && r'.col == r.row && r'.value == 1.0 - r.value
  {
    hide Dot, Run, Normalize;
    MirroredRun(a, n, m, t);
    var r := Solve(a, n, m, t);
    ComplementUtilities(a, r.row, r.col);
    AffineDot(r.col, VecMat(r.row, a, m), 1.0, -1.0);
    Exchange(r.row, a, r.col);
  }

  // ----- the loop -----

  /** The self-play loop over four in-place accumulators computes exactly the
      specified run. */
  method SolveRegretMatching(payoff: Mat, iters: nat) returns (r: Solution)
    requires payoff != [] && payoff[0] != [] && Shape(payoff, |payoff|, |payoff[0]|)
    ensures r == Solve(payoff, |payoff|, |payoff[0]|, iters)
  {
    hide Dot, Normalize, Step, Bilinear, MatVec;
    var n, m := |payoff|, |payoff[0]|;
    var rowRegret, colRegret := new real[n](_ => 0.0), new real[m](_ => 0.0);
    var rowSum, colSum := new real[n](_ => 0.0), new real[m](_ => 0.0);
    ghost var s := Run(payoff, n, m, 0);
    assert rowRegret[..] == s.rowRegret && colRegret[..] == s.colRegret;
    assert rowSum[..] == s.rowSum && colSum[..] == s.colSum;
    for t := 0 to iters
      invariant Regrets(rowRegret[..], colRegret[..], rowSum[..], colSum[..]) == Run(payoff, n, m, t)
    {
      PlayOnce(payoff, rowRegret, colRegret, rowSum, colSum);
    }
    var row, col := Normalize(rowSum[..]), Normalize(colSum[..]);
    r := Solution(row, col, Bilinear(row, payoff, col));
  }

  /** The body of the loop: both players mix by their regrets, the mixes are added to
      the running sums, and every option's regret is brought up to date. */
  method PlayOnce(payoff: Mat, rowRegret: array<real>, colRegret: array<real>, rowSum: array<real>, colSum: array<real>)
    requires Game(payoff, rowRegret.Length, colRegret.Length)
    requires rowSum.Length == rowRegret.Length && colSum.Length == colRegret.Length
    requires rowRegret != colRegret && rowRegret != rowSum && rowRegret != colSum
    requires colRegret != rowSum && colRegret != colSum && rowSum != colSum
    modifies rowRegret, colRegret, rowSum, colSum
    ensures Regrets(rowRegret[..], colRegret[..], rowSum[..], colSum[..])
         == Step(payoff, rowRegret.Length, colRegret.Length,
                 old(Regrets(rowRegret[..], colRegret[..], rowSum[..], colSum[..])))
  {
    hide Dot, Normalize, RowUtil, ColUtil, Add, Shift;
    var x, y := Normalize(rowRegret[..]), Normalize(colRegret[..]);
    AddInPlace(rowSum, x, 0.0);
    AddInPlace(colSum, y, 0.0);
    var rowUtil := RowUtil(payoff, y);
    var rowValue := Dot(x, rowUtil);
    AddInPlace(rowRegret, rowUtil, -rowValue);
    var colUtil := ColUtil(payoff, x, colRegret.Length);
    var colValue := Dot(y, colUtil);
    AddInPlace(colRegret, colUtil, -colValue);
  }

  /** The inner loops: acc[i] += v[i] + c for every i. */
  method AddInPlace(acc: array<real>, v: Vec, c: real)
    requires acc.Length == |v|
    modifies acc
    ensures acc[..] == Add(old(acc[..]), Shift(v, c))
    ensures c == 0.0 ==> acc[..] == Add(old(acc[..]), v)
  {
    for i := 0 to acc.Length
      invariant forall k :: 0 <= k < i ==> acc[k] == old(acc[k]) + (v[k] + c)
      invariant forall k :: i <= k < acc.Length ==> acc[k] == old(acc[k])
    {
      acc[i] := acc[i] + (v[i] + c);
    }
  }
}
