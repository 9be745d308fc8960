/** Every matrix game has an exact saddle point, so an exact solver exists. */
module Minimax {
  import opened Vectors
  import opened MatrixGame
  import opened RegretMatching
  import opened ZeroSum
  import opened Inequalities

  // ----- the saddle point as a system of inequalities -----

  /** A row over the constant, the row mix, the column mix and the value. */
  function Row(b: real, c: Vec, e: Vec, f: real): (r: Vec)
    ensures |r| == |c| + |e| + 2 && r[0] == b
  {
    [b] + c + e + [f]
  }

  lemma RowDot(b: real, c: Vec, e: Vec, f: real, z0: real, x: Vec, y: Vec, v: real)
    requires |c| == |x| && |e| == |y|
    ensures Dot(Row(b, c, e, f), Row(z0, x, y, v)) == Times(b, z0) + Dot(c, x) + Dot(e, y) + Times(f, v)
  {
    hide Dot;
    DotConcat([b] + c + e, [f], [z0] + x + y, [v]);
    DotConcat([b] + c, e, [z0] + x, y);
    DotConcat([b], c, [z0], x);
    DotOne(b, z0);
    DotOne(f, v);
  }

  lemma DotOne(p: real, q: real)
    ensures Dot([p], [q]) == Times(p, q)
  {
    assert Dot([p], [q]) == p * q + Dot([p][1..], [q][1..]);
  }

  lemma Signed(p: real)
    ensures Times(1.0, p) == p && Times(-1.0, p) == -p && Times(0.0, p) == 0.0
  {}

  lemma ShiftDot(q: Vec, u: Vec, v: real)
    requires |q| == |u|
    ensures Dot(q, Shift(u, v)) == Dot(q, u) + Times(v, Sum(q))
  {
    DotShift(q, u, v);
  }

  lemma MinusDot(q: Vec, u: Vec)
    requires |q| == |u|
    ensures Dot(q, Scale(-1.0, u)) == -Dot(q, u)
  {
    hide Dot;
    DotScale(q, -1.0, u);
  }

  /** Against every column the row mix earns at least the value. */
  function Earns(a: Mat, n: nat, m: nat): Mat
    requires Shape(a, n, m)
  {
    seq(m, j requires 0 <= j < m => Row(0.0, Scale(-1.0, Column(a, j)), Const(m, 0.0), 1.0))
  }

  /** Every row earns at most the value against the column mix. */
  function Concession(a: Mat, n: nat, m: nat): Mat
    requires Shape(a, n, m)
  {
    seq(n, i requires 0 <= i < n => Row(0.0, Const(n, 0.0), a[i], -1.0))
  }

  function RowSigns(n: nat, m: nat): Mat {
    seq(n, i requires 0 <= i < n => Row(0.0, Scale(-1.0, Pure(n, i)), Const(m, 0.0), 0.0))
  }

  function ColumnSigns(n: nat, m: nat): Mat {
    seq(m, j requires 0 <= j < m => Row(0.0, Const(n, 0.0), Scale(-1.0, Pure(m, j)), 0.0))
  }

  function Masses(n: nat, m: nat): Mat {
    [Row(1.0, Const(n, 1.0), Const(m, 0.0), 0.0), Row(-1.0, Const(n, -1.0), Const(m, 0.0), 0.0),
     Row(1.0, Const(n, 0.0), Const(m, 1.0), 0.0), Row(-1.0, Const(n, 0.0), Const(m, -1.0), 0.0)]
  }

  function SaddleRows(a: Mat, n: nat, m: nat): (s: Mat)
    requires Shape(a, n, m)
    ensures Rows(s, n + m + 2) && |s| == m + n + n + m + 4
  {
    Earns(a, n, m) + Concession(a, n, m) + RowSigns(n, m) + ColumnSigns(n, m) + Masses(n, m)
  }

  // ----- what each group of rows says -----

  lemma EarnsAt(a: Mat, x: Vec, y: Vec, z0: real, v: real)
    requires Shape(a, |x|, |y|)
    ensures Rows(Earns(a, |x|, |y|), |x| + |y| + 2)
    ensures MatVec(Earns(a, |x|, |y|), Row(z0, x, y, v)) == Shift(Scale(-1.0, VecMat(x, a, |y|)), v)
  {
    hide Dot;
    var n, m := |x|, |y|;
    forall j | 0 <= j < m
      ensures Dot(Earns(a, n, m)[j], Row(z0, x, y, v)) == -1.0 * VecMat(x, a, m)[j] + v
    {
      RowDot(0.0, Scale(-1.0, Column(a, j)), Const(m, 0.0), 1.0, z0, x, y, v);
      NegatedDot(Column(a, j), x);
      ZeroDot(y);
    }
  }

  lemma NegatedDot(c: Vec, x: Vec)
    requires |c| == |x|
    ensures Dot(Scale(-1.0, c), x) == -Dot(c, x)
  {
    hide Dot;
    DotComm(Scale(-1.0, c), x);
    DotScale(x, -1.0, c);
    DotComm(x, c);
  }

  lemma ZeroDot(y: Vec)
    ensures Dot(Const(|y|, 0.0), y) == 0.0 == Dot(y, Const(|y|, 0.0))
  {
    hide Dot;
    DotComm(Const(|y|, 0.0), y);
    DotConst(y, 0.0);
  }

  lemma ConcessionAt(a: Mat, x: Vec, y: Vec, z0: real, v: real)
    requires Shape(a, |x|, |y|)
    ensures Rows(Concession(a, |x|, |y|), |x| + |y| + 2)
    ensures MatVec(Concession(a, |x|, |y|), Row(z0, x, y, v)) == Shift(MatVec(a, y), -v)
  {
    hide Dot;
    var n, m := |x|, |y|;
    forall i | 0 <= i < n ensures Dot(Concession(a, n, m)[i], Row(z0, x, y, v)) == MatVec(a, y)[i] - v {
      RowDot(0.0, Const(n, 0.0), a[i], -1.0, z0, x, y, v);
      ZeroDot(x);
    }
  }

  lemma RowSignsAt(x: Vec, y: Vec, z0: real, v: real)
    ensures Rows(RowSigns(|x|, |y|), |x| + |y| + 2)
    ensures MatVec(RowSigns(|x|, |y|), Row(z0, x, y, v)) == Scale(-1.0, x)
  {
    hide Dot;
    var n, m := |x|, |y|;
    forall i | 0 <= i < n ensures Dot(RowSigns(n, m)[i], Row(z0, x, y, v)) == -1.0 * x[i] {
      RowDot(0.0, Scale(-1.0, Pure(n, i)), Const(m, 0.0), 0.0, z0, x, y, v);
      NegatedDot(Pure(n, i), x);
      DotPure(n, i, x);
      ZeroDot(y);
    }
  }

  lemma ColumnSignsAt(x: Vec, y: Vec, z0: real, v: real)
    ensures Rows(ColumnSigns(|x|, |y|), |x| + |y| + 2)
    ensures MatVec(ColumnSigns(|x|, |y|), Row(z0, x, y, v)) == Scale(-1.0, y)
  {
    hide Dot;
    var n, m := |x|, |y|;
    forall j | 0 <= j < m ensures Dot(ColumnSigns(n, m)[j], Row(z0, x, y, v)) == -1.0 * y[j] {
      RowDot(0.0, Const(n, 0.0), Scale(-1.0, Pure(m, j)), 0.0, z0, x, y, v);
      NegatedDot(Pure(m, j), y);
      DotPure(m, j, y);
      ZeroDot(x);
    }
  }

  lemma {:induction false} MassesAt(x: Vec, y: Vec, z0: real, v: real)
    ensures Rows(Masses(|x|, |y|), |x| + |y| + 2)
    ensures MatVec(Masses(|x|, |y|), Row(z0, x, y, v))
         == Opposites(z0 + Sum(x), z0 + Sum(y))
  {
    hide Dot, Sum, Row, Times, Const;
    var z, g := Row(z0, x, y, v), Masses(|x|, |y|);
    MassRows(x, y, z0, v);
    var u, o := MatVec(g, z), Opposites(z0 + Sum(x), z0 + Sum(y));
    assert g[0] == Row(1.0, Const(|x|, 1.0), Const(|y|, 0.0), 0.0);
    assert g[1] == Row(-1.0, Const(|x|, -1.0), Const(|y|, 0.0), 0.0);
    assert g[2] == Row(1.0, Const(|x|, 0.0), Const(|y|, 1.0), 0.0);
    assert g[3] == Row(-1.0, Const(|x|, 0.0), Const(|y|, -1.0), 0.0);
    assert u[0] == o[0] && u[1] == o[1] && u[2] == o[2] && u[3] == o[3];
    assert u == o;
  }

  function Opposites(g: real, h: real): Vec {
    [g, -g, h, -h]
  }

  lemma MassRows(x: Vec, y: Vec, z0: real, v: real)
    ensures |Const(|x|, 0.0)| == |Const(|x|, 1.0)| == |Const(|x|, -1.0)| == |x|
    ensures |Const(|y|, 0.0)| == |Const(|y|, 1.0)| == |Const(|y|, -1.0)| == |y|
    ensures Dot(Row(1.0, Const(|x|, 1.0), Const(|y|, 0.0), 0.0), Row(z0, x, y, v)) == z0 + Sum(x)
    ensures Dot(Row(-1.0, Const(|x|, -1.0), Const(|y|, 0.0), 0.0), Row(z0, x, y, v)) == -(z0 + Sum(x))
    ensures Dot(Row(1.0, Const(|x|, 0.0), Const(|y|, 1.0), 0.0), Row(z0, x, y, v)) == z0 + Sum(y)
    ensures Dot(Row(-1.0, Const(|x|, 0.0), Const(|y|, -1.0), 0.0), Row(z0, x, y, v)) == -(z0 + Sum(y))
  {
    hide Dot, Sum, Row, Times;
    RowMassDot(1.0, x, y, z0, v);
    RowMassDot(-1.0, x, y, z0, v);
    ColumnMassDot(1.0, x, y, z0, v);
    ColumnMassDot(-1.0, x, y, z0, v);
    Signed(z0);
    Signed(Sum(x));
    Signed(Sum(y));
  }

  lemma RowMassDot(c: real, x: Vec, y: Vec, z0: real, v: real)
    ensures Dot(Row(c, Const(|x|, c), Const(|y|, 0.0), 0.0), Row(z0, x, y, v)) == Times(c, z0) + Times(c, Sum(x))
  {
    hide Dot, Sum, Times, Row;
    RowDot(c, Const(|x|, c), Const(|y|, 0.0), 0.0, z0, x, y, v);
    ConstDot(x, c);
    ZeroDot(y);
    Signed(v);
  }

  lemma ColumnMassDot(c: real, x: Vec, y: Vec, z0: real, v: real)
    ensures Dot(Row(c, Const(|x|, 0.0), Const(|y|, c), 0.0), Row(z0, x, y, v)) == Times(c, z0) + Times(c, Sum(y))
  {
    hide Dot, Sum, Times, Row;
    RowDot(c, Const(|x|, 0.0), Const(|y|, c), 0.0, z0, x, y, v);
    ConstDot(y, c);
    ZeroDot(x);
    Signed(v);
  }

  lemma ConstDot(x: Vec, c: real)
    ensures Dot(Const(|x|, c), x) == Times(c, Sum(x))
  {
    hide Dot;
    DotComm(Const(|x|, c), x);
    DotConst(x, c);
  }

  /** A solution of the system is a saddle point. */
  lemma SolutionIsSaddle(a: Mat, x: Vec, y: Vec, v: real)
    requires Game(a, |x|, |y|) && Meets(SaddleRows(a, |x|, |y|), Row(-1.0, x, y, v))
    ensures Saddle(a, x, y, v, 0.0)
  {
    hide Dot, Sum, Earns, Concession, RowSigns, ColumnSigns, Masses, Row;
    var n, m, z := |x|, |y|, Row(-1.0, x, y, v);
    EarnsAt(a, x, y, -1.0, v);
    ConcessionAt(a, x, y, -1.0, v);
    RowSignsAt(x, y, -1.0, v);
    ColumnSignsAt(x, y, -1.0, v);
    MassesAt(x, y, -1.0, v);
    var s := SaddleRows(a, n, m);
    GroupsMet(Earns(a, n, m), Concession(a, n, m), RowSigns(n, m), ColumnSigns(n, m), Masses(n, m), z);
    forall j | 0 <= j < m ensures VecMat(x, a, m)[j] >= v - 0.0 {
      assert MatVec(Earns(a, n, m), z)[j] == -1.0 * VecMat(x, a, m)[j] + v;
    }
    forall i | 0 <= i < n ensures MatVec(a, y)[i] <= v + 0.0 {
      assert MatVec(Concession(a, n, m), z)[i] == MatVec(a, y)[i] - v;
    }
    forall i | 0 <= i < n ensures x[i] >= 0.0 { assert MatVec(RowSigns(n, m), z)[i] == -1.0 * x[i]; }
    forall j | 0 <= j < m ensures y[j] >= 0.0 { assert MatVec(ColumnSigns(n, m), z)[j] == -1.0 * y[j]; }
    var w := MatVec(Masses(n, m), z);
    assert w[0] <= 0.0 && w[1] <= 0.0 && w[2] <= 0.0 && w[3] <= 0.0;
  }

  /** All groups meet what the system meets. */
  lemma GroupsMet(g1: Mat, g2: Mat, g3: Mat, g4: Mat, g5: Mat, z: Vec)
    requires Rows(g1, |z|) && Rows(g2, |z|) && Rows(g3, |z|) && Rows(g4, |z|) && Rows(g5, |z|)
    requires Rows(g1 + g2 + g3 + g4 + g5, |z|) && Meets(g1 + g2 + g3 + g4 + g5, z)
    ensures AtMostZero(MatVec(g1, z)) && AtMostZero(MatVec(g2, z)) && AtMostZero(MatVec(g3, z))
    ensures AtMostZero(MatVec(g4, z)) && AtMostZero(MatVec(g5, z))
  {
    hide Dot;
    var s := g1 + g2 + g3 + g4 + g5;
    var k1 := |g1|;
    var k2 := k1 + |g2|;
    var k3 := k2 + |g3|;
    var k4 := k3 + |g4|;
    assert forall k :: 0 <= k < |g1| ==> g1[k] == s[k];
    assert forall k :: 0 <= k < |g2| ==> g2[k] == s[k1 + k];
    assert forall k :: 0 <= k < |g3| ==> g3[k] == s[k2 + k];
    assert forall k :: 0 <= k < |g4| ==> g4[k] == s[k3 + k];
    assert forall k :: 0 <= k < |g5| ==> g5[k] == s[k4 + k];
  }

  ghost predicate AtMostZero(u: Vec) {
    forall k :: 0 <= k < |u| ==> u[k] <= 0.0
  }

  // ----- the system cannot be refuted -----

  lemma {:induction false} AbsurdDot(r: Vec, z: Vec)
    requires Absurd(r) && |r| == |z|
    ensures Dot(r, z) == Times(r[0], z[0])
  {
    var n := |r| - 1;
    assert r[1..] == Const(n, 0.0);
    ZeroDot(z[1..]);
    assert Dot(r, z) == r[0] * z[0] + Dot(r[1..], z[1..]);
  }

  /** What a refutation with these weights says of every vector. */
  ghost predicate Balanced(a: Mat, q: Vec, p: Vec, s: Vec, r: Vec, sigma: real, tau: real, b: real) {
    && Shape(a, |p|, |q|) && |s| == |p| && |r| == |q|
    && forall z0: real, x: Vec, y: Vec, v: real :: |x| == |p| && |y| == |q| ==>
         BalancedAt(a, q, p, s, r, sigma, tau, b, z0, x, y, v)
  }

  ghost predicate BalancedAt(a: Mat, q: Vec, p: Vec, s: Vec, r: Vec, sigma: real, tau: real, b: real,
                             z0: real, x: Vec, y: Vec, v: real)
    requires Shape(a, |p|, |q|) && |s| == |p| == |x| && |r| == |q| == |y|
  {
    Times(b, z0) == -Dot(q, VecMat(x, a, |q|)) + Times(v, Sum(q)) + Dot(p, MatVec(a, y)) - Times(v, Sum(p))
                    - Dot(s, x) - Dot(r, y) + Times(sigma, z0 + Sum(x)) + Times(tau, z0 + Sum(y))
  }

  /** Some weights of a refutation. */
  lemma RefutationBalances(a: Mat, n: nat, m: nat, l: Vec, r: Vec)
    returns (q: Vec, p: Vec, s: Vec, t: Vec, sigma: real, tau: real)
    requires Game(a, n, m) && |l| == m + n + n + m + 4 && NonNeg(l) && Absurd(r)
    requires Comb(l, SaddleRows(a, n, m), n + m + 2) == r
    ensures |q| == |t| == m && |p| == |s| == n && NonNeg(q) && NonNeg(p) && NonNeg(s) && NonNeg(t)
    ensures Balanced(a, q, p, s, t, sigma, tau, r[0])
  {
    hide Dot, Sum, Comb, Earns, Concession, RowSigns, ColumnSigns, Masses, BalancedAt, SaddleRows, VecMat, MatVec;
    q, p, s, t := l[..m], l[m..m + n], l[m + n..m + n + n], l[m + n + n..m + n + n + m];
    var w := l[m + n + n + m..];
    sigma, tau := w[0] - w[1], w[2] - w[3];
    assert l == q + p + s + t + w;
    forall z0: real, x: Vec, y: Vec, v: real | |x| == |p| && |y| == |q|
      ensures BalancedAt(a, q, p, s, t, sigma, tau, r[0], z0, x, y, v)
    {
      BalanceHere(a, q, p, s, t, w, r, z0, x, y, v);
    }
  }

  lemma {:induction false} BalanceHere(a: Mat, q: Vec, p: Vec, s: Vec, t: Vec, w: Vec, r: Vec, z0: real, x: Vec,
                                       y: Vec, v: real)
    requires Shape(a, |x|, |y|) && |p| == |s| == |x| && |q| == |t| == |y| && |w| == 4 && Absurd(r)
    requires Comb(q + p + s + t + w, SaddleRows(a, |x|, |y|), |x| + |y| + 2) == r
    ensures BalancedAt(a, q, p, s, t, w[0] - w[1], w[2] - w[3], r[0], z0, x, y, v)
  {
    hide Dot, Sum, Comb, Earns, Concession, RowSigns, ColumnSigns, Masses, Row, Absurd, Times, VecMat, MatVec, Shift,
      Scale, SaddleRows;
    var n, m, z := |x|, |y|, Row(z0, x, y, v);
    var l, rows := q + p + s + t + w, SaddleRows(a, n, m);
    CombDot(l, rows, z);
    AbsurdDot(r, z);
    AllGroups(a, q, p, s, t, w, z0, x, y, v);
  }

  /** What the groups of rows come to. */
  lemma {:induction false} AllGroups(a: Mat, q: Vec, p: Vec, s: Vec, t: Vec, w: Vec, z0: real, x: Vec, y: Vec, v: real)
    requires Shape(a, |x|, |y|) && |p| == |s| == |x| && |q| == |t| == |y| && |w| == 4
    ensures Dot(q + p + s + t + w, MatVec(SaddleRows(a, |x|, |y|), Row(z0, x, y, v)))
         == -Dot(q, VecMat(x, a, |q|)) + Times(v, Sum(q)) + Dot(p, MatVec(a, y)) - Times(v, Sum(p))
            - Dot(s, x) - Dot(t, y) + Times(w[0] - w[1], z0 + Sum(x)) + Times(w[2] - w[3], z0 + Sum(y))
  {
    hide Dot, Sum, Earns, Concession, RowSigns, ColumnSigns, Masses, Row, Times, VecMat, MatVec, Shift, Scale;
    var n, m, z := |x|, |y|, Row(z0, x, y, v);
    EarnsDot(a, q, z0, x, y, v);
    ConcessionDot(a, p, z0, x, y, v);
    SignsDot(s, t, z0, x, y, v);
    MassesDot(w, z0, x, y, v);
    GroupsDot(Earns(a, n, m), Concession(a, n, m), RowSigns(n, m), ColumnSigns(n, m), Masses(n, m), z, q, p, s, t, w);
  }

  lemma EarnsDot(a: Mat, q: Vec, z0: real, x: Vec, y: Vec, v: real)
    requires Shape(a, |x|, |y|) && |q| == |y|
    ensures var g := Earns(a, |x|, |y|);
      && |g| == |y| && Rows(g, |x| + |y| + 2)
      && Dot(q, MatVec(g, Row(z0, x, y, v))) == -Dot(q, VecMat(x, a, |y|)) + Times(v, Sum(q))
  {
    hide Dot, Sum, Row, Times;
    EarnsAt(a, x, y, z0, v);
    ShiftDot(q, Scale(-1.0, VecMat(x, a, |y|)), v);
    MinusDot(q, VecMat(x, a, |y|));
  }

  lemma ConcessionDot(a: Mat, p: Vec, z0: real, x: Vec, y: Vec, v: real)
    requires Shape(a, |x|, |y|) && |p| == |x|
    ensures var g := Concession(a, |x|, |y|);
      && |g| == |x| && Rows(g, |x| + |y| + 2)
      && Dot(p, MatVec(g, Row(z0, x, y, v))) == Dot(p, MatVec(a, y)) - Times(v, Sum(p))
  {
    hide Dot, Sum, Row, Times;
    ConcessionAt(a, x, y, z0, v);
    ShiftDot(p, MatVec(a, y), -v);
    MinusTimes(v, Sum(p));
  }

  lemma SignsDot(s: Vec, t: Vec, z0: real, x: Vec, y: Vec, v: real)
    requires |s| == |x| && |t| == |y|
    ensures var g, h := RowSigns(|x|, |y|), ColumnSigns(|x|, |y|);
      && |g| == |x| && |h| == |y| && Rows(g, |x| + |y| + 2) && Rows(h, |x| + |y| + 2)
      && Dot(s, MatVec(g, Row(z0, x, y, v))) == -Dot(s, x) && Dot(t, MatVec(h, Row(z0, x, y, v))) == -Dot(t, y)
  {
    hide Dot, Row;
    RowSignsAt(x, y, z0, v);
    ColumnSignsAt(x, y, z0, v);
    MinusDot(s, x);
    MinusDot(t, y);
  }

  lemma MassesDot(w: Vec, z0: real, x: Vec, y: Vec, v: real)
    requires |w| == 4
    ensures var g := Masses(|x|, |y|);
      && |g| == 4 && Rows(g, |x| + |y| + 2)
      && Dot(w, MatVec(g, Row(z0, x, y, v))) == Times(w[0] - w[1], z0 + Sum(x)) + Times(w[2] - w[3], z0 + Sum(y))
  {
    hide Dot, Sum, Row, Times, MatVec, Masses, Opposites;
    MassesAt(x, y, z0, v);
    FourMasses(|x|, |y|);
    FourDot(w, z0 + Sum(x), z0 + Sum(y));
  }

  lemma FourMasses(n: nat, m: nat)
    ensures |Masses(n, m)| == 4
  {}

  lemma MinusTimes(v: real, p: real)
    ensures Times(-v, p) == -Times(v, p)
  {}

  lemma FourDot(w: Vec, g: real, h: real)
    requires |w| == 4
    ensures Dot(w, Opposites(g, h)) == Times(w[0] - w[1], g) + Times(w[2] - w[3], h)
  {
    var u := Opposites(g, h);
    var w1, u1 := w[1..], u[1..];
    var w2, u2 := w1[1..], u1[1..];
    var w3, u3 := w2[1..], u2[1..];
    assert Dot(w3, u3) == w3[0] * u3[0] + Dot(w3[1..], u3[1..]) == w[3] * -h;
    assert Dot(w2, u2) == w[2] * h + Dot(w3, u3);
    assert Dot(w1, u1) == w[1] * -g + Dot(w2, u2);
    assert Dot(w, u) == w[0] * g + Dot(w1, u1);
    SignedPair(w[0], w[1], g);
    SignedPair(w[2], w[3], h);
  }

  lemma SignedPair(p: real, q: real, g: real)
    ensures p * g + q * -g == Times(p - q, g)
  {}

  lemma TwoGroups(g1: Mat, g2: Mat, z: Vec, q: Vec, p: Vec)
    requires Rows(g1, |z|) && Rows(g2, |z|) && |q| == |g1| && |p| == |g2|
    ensures Rows(g1 + g2, |z|)
    ensures Dot(q + p, MatVec(g1 + g2, z)) == Dot(q, MatVec(g1, z)) + Dot(p, MatVec(g2, z))
  {
    hide Dot;
    assert MatVec(g1 + g2, z) == MatVec(g1, z) + MatVec(g2, z);
    DotConcat(q, p, MatVec(g1, z), MatVec(g2, z));
  }

  lemma {:induction false} GroupsDot(g1: Mat, g2: Mat, g3: Mat, g4: Mat, g5: Mat, z: Vec, q: Vec, p: Vec, s: Vec,
                                     t: Vec, w: Vec)
    requires Rows(g1, |z|) && Rows(g2, |z|) && Rows(g3, |z|) && Rows(g4, |z|) && Rows(g5, |z|)
    requires |q| == |g1| && |p| == |g2| && |s| == |g3| && |t| == |g4| && |w| == |g5|
    ensures Rows(g1 + g2 + g3 + g4 + g5, |z|)
    ensures Dot(q + p + s + t + w, MatVec(g1 + g2 + g3 + g4 + g5, z))
         == Dot(q, MatVec(g1, z)) + Dot(p, MatVec(g2, z)) + Dot(s, MatVec(g3, z)) + Dot(t, MatVec(g4, z))
            + Dot(w, MatVec(g5, z))
  {
    hide Dot;
    TwoGroups(g1, g2, z, q, p);
    TwoGroups(g1 + g2, g3, z, q + p, s);
    TwoGroups(g1 + g2 + g3, g4, z, q + p + s, t);
    TwoGroups(g1 + g2 + g3 + g4, g5, z, q + p + s + t, w);
  }

  // ----- and nothing balances -----

  lemma {:induction false} At(a: Mat, q: Vec, p: Vec, s: Vec, t: Vec, sigma: real, tau: real, b: real,
           z0: real, x: Vec, y: Vec, v: real)
    requires Balanced(a, q, p, s, t, sigma, tau, b) && |x| == |p| && |y| == |q|
    ensures Times(b, z0)
         == -Dot(q, VecMat(x, a, |q|)) + Times(v, Sum(q)) + Dot(p, MatVec(a, y)) - Times(v, Sum(p))
            - Dot(s, x) - Dot(t, y) + Times(sigma, z0 + Sum(x)) + Times(tau, z0 + Sum(y))
  {
    hide Dot, Sum, VecMat, MatVec, Times;
    assert BalancedAt(a, q, p, s, t, sigma, tau, b, z0, x, y, v);
  }

  lemma AtZero(a: Mat, n: nat, m: nat)
    requires Shape(a, n, m)
    ensures VecMat(Const(n, 0.0), a, m) == Const(m, 0.0) && MatVec(a, Const(m, 0.0)) == Const(n, 0.0)
  {
    hide Dot;
    forall j | 0 <= j < m ensures VecMat(Const(n, 0.0), a, m)[j] == 0.0 { ZeroDot(Column(a, j)); }
    forall i | 0 <= i < n ensures MatVec(a, Const(m, 0.0))[i] == 0.0 { ZeroDot(a[i]); }
  }

  /** The columns and the rows weigh the same, and the masses weigh what is absurd. */
  lemma {:induction false} SameMass(a: Mat, q: Vec, p: Vec, s: Vec, t: Vec, sigma: real, tau: real, b: real)
    requires Balanced(a, q, p, s, t, sigma, tau, b)
    ensures Sum(q) == Sum(p) && sigma + tau == b
  {
    hide Dot, Sum, Balanced, VecMat, MatVec, Times;
    var n, m := |p|, |q|;
    var x, y := Const(n, 0.0), Const(m, 0.0);
    BalancedShape(a, q, p, s, t, sigma, tau, b);
    At(a, q, p, s, t, sigma, tau, b, 0.0, x, y, 1.0);
    At(a, q, p, s, t, sigma, tau, b, 1.0, x, y, 0.0);
    AtZero(a, n, m);
    ZeroDot(q);
    ZeroDot(p);
    ZeroDot(s);
    ZeroDot(t);
    SumConst(n, 0.0);
    SumConst(m, 0.0);
    Signed(Sum(q));
    Signed(Sum(p));
    TimesOne(b);
    TimesOne(sigma);
    TimesOne(tau);
    TimesNothing(b);
    TimesNothing(sigma);
    TimesNothing(tau);
  }

  lemma TimesNothing(p: real)
    ensures Times(p, 0.0) == 0.0
  {}

  lemma BalancedShape(a: Mat, q: Vec, p: Vec, s: Vec, t: Vec, sigma: real, tau: real, b: real)
    requires Balanced(a, q, p, s, t, sigma, tau, b)
    ensures Shape(a, |p|, |q|) && |s| == |p| && |t| == |q|
  {}

  /** Weighed against themselves the payoffs cancel. */
  lemma {:induction false} CrossTerms(a: Mat, q: Vec, p: Vec, s: Vec, t: Vec, sigma: real, tau: real, b: real)
    requires Balanced(a, q, p, s, t, sigma, tau, b) && |s| == |p| && |t| == |q|
    requires NonNeg(q) && NonNeg(p) && NonNeg(s) && NonNeg(t)
    ensures Times(b, Sum(p)) >= 0.0
  {
    hide Dot, Sum, Balanced, VecMat, MatVec, Times;
    SameMass(a, q, p, s, t, sigma, tau, b);
    BalancedShape(a, q, p, s, t, sigma, tau, b);
    At(a, q, p, s, t, sigma, tau, b, 0.0, p, q, 0.0);
    Exchange(p, a, q);
    DotNonNeg(s, p);
    DotNonNeg(t, q);
    MatShapes(a, p, q);
    assert Bilinear(p, a, q) == Dot(p, MatVec(a, q));
    Signed(Sum(q));
    Signed(Sum(p));
    TimesNothing(b);
    TimesPlus(sigma, tau, Sum(p));
  }

  lemma TimesPlus(p: real, q: real, g: real)
    ensures Times(p + q, g) == Times(p, g) + Times(q, g)
  {}

  lemma {:induction false} DotNonNeg(x: Vec, y: Vec)
    requires |x| == |y| && NonNeg(x) && NonNeg(y)
    ensures Dot(x, y) >= 0.0
  {
    ZeroDot(x);
    DotMono(x, Const(|x|, 0.0), y);
  }

  lemma {:induction false} NoMass(x: Vec)
    requires NonNeg(x) && Sum(x) <= 0.0
    ensures x == Const(|x|, 0.0)
  {
    if x != [] {
      SumNonNeg(x[1..]);
      NoMass(x[1..]);
      assert x == [x[0]] + x[1..];
    }
  }

  /** Nothing balances an absurdity. */
  lemma {:induction false} Unbalanced(a: Mat, q: Vec, p: Vec, s: Vec, t: Vec, sigma: real, tau: real, b: real)
    requires Game(a, |p|, |q|) && |s| == |p| && |t| == |q| && NonNeg(q) && NonNeg(p) && NonNeg(s) && NonNeg(t)
    requires b < 0.0
    ensures !Balanced(a, q, p, s, t, sigma, tau, b)
  {
    hide Dot, Sum, Balanced, VecMat, MatVec, Times;
    if Balanced(a, q, p, s, t, sigma, tau, b) {
      SameMass(a, q, p, s, t, sigma, tau, b);
      CrossTerms(a, q, p, s, t, sigma, tau, b);
      SumNonNeg(p);
      if Sum(p) > 0.0 { MulNegative(b, Sum(p)); }
      NoMass(p);
      NoMass(q);
      PureBalance(a, q, p, s, t, sigma, tau, b);
      assert false;
    }
  }

  lemma MulNegative(b: real, p: real)
    requires b < 0.0 < p
    ensures Times(b, p) < 0.0
  {}

  /** Without weights on the payoffs, the signs alone would be absurd. */
  lemma {:induction false} PureBalance(a: Mat, q: Vec, p: Vec, s: Vec, t: Vec, sigma: real, tau: real, b: real)
    requires Balanced(a, q, p, s, t, sigma, tau, b) && Game(a, |p|, |q|) && |s| == |p| && |t| == |q|
    requires q == Const(|q|, 0.0) && p == Const(|p|, 0.0) && NonNeg(s) && NonNeg(t)
    ensures b >= 0.0
  {
    hide Dot, Sum, Balanced, VecMat, MatVec, Times;
    var n, m := |p|, |q|;
    var x, y := Pure(n, 0), Pure(m, 0);
    SameMass(a, q, p, s, t, sigma, tau, b);
    At(a, q, p, s, t, sigma, tau, b, 0.0, x, y, 0.0);
    MatShapes(a, x, y);
    ZeroDot(VecMat(x, a, m));
    ZeroDot(MatVec(a, y));
    DotPure(n, 0, s);
    DotPure(m, 0, t);
    DotComm(s, x);
    DotComm(t, y);
    SimplexSum(x);
    SimplexSum(y);
    Signed(Sum(q));
    Signed(Sum(p));
    TimesNothing(b);
    TimesOne(sigma);
    TimesOne(tau);
  }

  lemma MatShapes(a: Mat, x: Vec, y: Vec)
    requires Shape(a, |x|, |y|)
    ensures |VecMat(x, a, |y|)| == |y| && |MatVec(a, y)| == |x|
  {}

  // ----- the theorem -----

  /** The minimax theorem: every game has mixes of both players and a value such that the
      one earns at least, and the other concedes at most, exactly that value. */
  lemma ExactMinimax(a: Mat, n: nat, m: nat)
    requires Game(a, n, m)
    ensures exists x: Vec, y: Vec, v: real :: |x| == n && |y| == m && Saddle(a, x, y, v, 0.0)
  {
    hide SaddleRows, Saddle, Comb, Meets, Absurd, NonNeg, Row;
    var rows, k := SaddleRows(a, n, m), n + m + 2;
    Alternative(rows, k);
    if Feasible(rows, k) {
      var z: Vec :| |z| == k && z[0] == -1.0 && Meets(rows, z);
      var x, y, v := z[1..n + 1], z[n + 1..n + m + 1], z[n + m + 1];
      ZParts(z, n, m);
      SolutionIsSaddle(a, x, y, v);
    } else {
      var r: Vec :| Absurd(r) && Cone(rows, k, r);
      var l: Vec :| |l| == |rows| && NonNeg(l) && Comb(l, rows, k) == r;
      AbsurdFirst(r);
      var q, p, s, t, sigma, tau := RefutationBalances(a, n, m, l, r);
      Unbalanced(a, q, p, s, t, sigma, tau, r[0]);
      assert false;
    }
  }

  lemma AbsurdFirst(r: Vec)
    requires Absurd(r)
    ensures |r| > 0 && r[0] < 0.0
  {}

  lemma ZParts(z: Vec, n: nat, m: nat)
    requires |z| == n + m + 2
    ensures z == Row(z[0], z[1..n + 1], z[n + 1..n + m + 1], z[n + m + 1])
  {}

  // ----- an exact solver -----

  /** One exact solution of every game. */
  ghost function Solved(a: Mat): Solution {
    if |a| > 0 && Game(a, |a|, |a[0]|) then
      ExactMinimax(a, |a|, |a[0]|);
      var x: Vec, y: Vec, v: real :| |x| == |a| && |y| == |a[0]| && Saddle(a, x, y, v, 0.0);
      Solution(x, y, v)
    else Solution([], [], 0.0)
  }

  lemma SolvedMeetsContract()
    ensures LpContract(a => Solved(a))
  {
    hide Saddle;
    forall a: Mat, n, m | Game(a, n, m)
      ensures |Solved(a).row| == n && |Solved(a).col| == m
      ensures Saddle(a, Solved(a).row, Solved(a).col, Solved(a).value, 0.0)
    {
      assert |a| == n && |a[0]| == m;
    }
  }

  /** The contract of the linear program can be met: what is proved for an exact solver is
      proved of something. */
  lemma ExactSolverExists()
    ensures exists s: Solver :: s.LinearProgram? && Sound(s) && Accurate(s, 0.0)
  {
    SolvedMeetsContract();
    var s := LinearProgram(a => Solved(a));
    assert Sound(s) && Accurate(s, 0.0);
  }
}
