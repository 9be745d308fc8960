/** Finite vectors and matrices of exact reals, with the few facts the game
    solver needs: bilinearity, monotonicity, and the exchange of a double sum. */
module Vectors {

  type Vec = seq<real>
  type Mat = seq<Vec>

  function Sum(x: Vec): real {
    if x == [] then 0.0 else x[0] + Sum(x[1..])
  }

  function Dot(x: Vec, y: Vec): real
    requires |x| == |y|
  {
    if x == [] then 0.0 else x[0] * y[0] + Dot(x[1..], y[1..])
  }

  function Const(n: nat, c: real): Vec {
    seq(n, _ => c)
  }

  function Add(x: Vec, y: Vec): Vec
    requires |x| == |y|
  {
    seq(|x|, i requires 0 <= i < |x| => x[i] + y[i])
  }

  function Scale(c: real, x: Vec): (r: Vec)
    ensures |r| == |x|
  {
    seq(|x|, i requires 0 <= i < |x| => c * x[i])
  }

  /** Adds the number c to every entry. */
  function Shift(x: Vec, c: real): (r: Vec)
    ensures |r| == |x|
  {
    seq(|x|, i requires 0 <= i < |x| => x[i] + c)
  }

  ghost predicate NonNeg(x: Vec) {
    forall i :: 0 <= i < |x| ==> x[i] >= 0.0
  }

  /** A mixed strategy: non-negative weights of total mass one. */
  ghost predicate Simplex(x: Vec) {
    NonNeg(x) && Sum(x) == 1.0
  }

  lemma SimplexSum(x: Vec)
    requires Simplex(x)
    ensures Sum(x) == 1.0
  {}

  ghost predicate Within(x: Vec, lo: real, hi: real) {
    forall i :: 0 <= i < |x| ==> lo <= x[i] <= hi
  }

  // ----- sums and dot products -----

  lemma ScaledAt(c: real, x: Vec, k: nat)
    requires k < |x|
    ensures Scale(c, x)[k] == Times(c, x[k]) == c * x[k]
  {}

  lemma ScaleTail(c: real, x: Vec)
    requires x != []
    ensures Scale(c, x)[1..] == Scale(c, x[1..])
  {
    forall i | 0 <= i < |x[1..]| ensures Scale(c, x)[1..][i] == Scale(c, x[1..])[i] {
      assert x[1..][i] == x[i + 1];
    }
  }

  lemma {:induction false} DotAdd(x: Vec, y: Vec, z: Vec)
    requires |x| == |y| == |z|
    ensures Dot(x, Add(y, z)) == Dot(x, y) + Dot(x, z)
  {
    if x != [] {
      DotAdd(x[1..], y[1..], z[1..]);
      assert Add(y, z)[1..] == Add(y[1..], z[1..]);
    }
  }

  lemma {:induction false} DotScale(x: Vec, c: real, y: Vec)
    requires |x| == |y|
    ensures Dot(x, Scale(c, y)) == c * Dot(x, y)
  {
    if x != [] {
      DotScale(x[1..], c, y[1..]);
      ScaleTail(c, y);
    }
  }

  lemma {:induction false} DotComm(x: Vec, y: Vec)
    requires |x| == |y|
    ensures Dot(x, y) == Dot(y, x)
  {
    if x != [] {
      DotComm(x[1..], y[1..]);
    }
  }

  lemma {:induction false} DotMono(x: Vec, y: Vec, z: Vec)
    requires |x| == |y| == |z| && NonNeg(x)
    requires forall i :: 0 <= i < |y| ==> y[i] <= z[i]
    ensures Dot(x, y) <= Dot(x, z)
  {
    if x != [] {
      MulMono(x[0], y[0], z[0]);
      assert forall i :: 0 <= i < |y[1..]| ==> y[1..][i] == y[i + 1] && z[1..][i] == z[i + 1];
      DotMono(x[1..], y[1..], z[1..]);
    }
  }

  lemma MulMono(a: real, b: real, c: real)
    requires a >= 0.0 && b <= c
    ensures a * b <= a * c
  {}

  /** A product kept as one term, so that facts about it combine linearly. */
  function Times(a: real, b: real): real {
    a * b
  }

  lemma TimesBoth(p: real, p': real, q: real, q': real)
    requires 0.0 <= p <= p' && 0.0 <= q <= q'
    ensures Times(p, q) <= Times(p', q')
  {
    MulMono(p, q, q');
    MulMono(q', p, p');
    assert p * q' == q' * p && q' * p' == p' * q';
  }

  lemma TimesOne(p: real)
    ensures Times(1.0, p) == p == Times(p, 1.0)
  {}

  lemma TimesUnit(c: real, p: real)
    requires 0.0 <= c && 0.0 <= p <= 1.0
    ensures 0.0 <= Times(c, p) <= c
  {
    MulNonNeg(c, p);
    MulAtMost(c, p);
  }

  lemma MulNonNeg(a: real, b: real)
    requires a >= 0.0 && b >= 0.0
    ensures a * b >= 0.0
  {}

  lemma MulAtMost(a: real, b: real)
    requires a >= 0.0 && b <= 1.0
    ensures a * b <= a
  {}

  function Power(q: real, n: nat): real {
    if n == 0 then 1.0 else Times(q, Power(q, n - 1))
  }

  lemma {:induction false} PowerFalls(q: real, n: nat, m: nat)
    requires 0.0 <= q <= 1.0 && n <= m
    ensures 0.0 <= Power(q, m) <= Power(q, n) <= 1.0
  {
    hide Times;
    if m > 0 {
      PowerFalls(q, if n == 0 then 0 else n - 1, m - 1);
      TimesUnit(q, Power(q, m - 1));
      if n > 0 {
        TimesUnit(q, Power(q, n - 1));
        TimesBoth(q, q, Power(q, m - 1), Power(q, n - 1));
      }
    }
  }

  lemma {:induction false} DotConst(x: Vec, c: real)
    ensures Dot(x, Const(|x|, c)) == c * Sum(x)
  {
    if x != [] {
      assert Const(|x|, c)[1..] == Const(|x[1..]|, c);
      DotConst(x[1..], c);
    }
  }

  lemma DotShift(x: Vec, y: Vec, c: real)
    requires |x| == |y|
    ensures Dot(x, Shift(y, c)) == Dot(x, y) + c * Sum(x)
  {
    assert Shift(y, c) == Add(y, Const(|x|, c));
    DotAdd(x, y, Const(|x|, c));
    DotConst(x, c);
  }

  /** Averaging a shifted vector shifts the average. */
  lemma MixShift(x: Vec, y: Vec, c: real)
    requires |x| == |y| && Sum(x) == 1.0
    ensures Dot(x, Shift(y, c)) == Dot(x, y) + c
  {
    hide Dot;
    DotShift(x, y, c);
  }

  lemma {:induction false} SumConst(n: nat, c: real)
    ensures Sum(Const(n, c)) == n as real * c
  {
    if n != 0 {
      assert Const(n, c)[1..] == Const(n - 1, c);
      SumConst(n - 1, c);
    }
  }

  lemma {:induction false} SumAdd(x: Vec, y: Vec)
    requires |x| == |y|
    ensures Sum(Add(x, y)) == Sum(x) + Sum(y)
  {
    if x != [] {
      assert Add(x, y)[1..] == Add(x[1..], y[1..]);
      SumAdd(x[1..], y[1..]);
    }
  }

  lemma {:induction false} SumScale(c: real, x: Vec)
    ensures Sum(Scale(c, x)) == c * Sum(x)
  {
    if x != [] {
      ScaleTail(c, x);
      SumScale(c, x[1..]);
    }
  }

  lemma {:induction false} SumNonNeg(x: Vec)
    requires NonNeg(x)
    ensures Sum(x) >= 0.0
    ensures forall i :: 0 <= i < |x| ==> x[i] <= Sum(x)
  {
    if x != [] {
      assert forall i :: 0 <= i < |x[1..]| ==> x[1..][i] == x[i + 1];
      SumNonNeg(x[1..]);
      forall i | 0 <= i < |x| ensures x[i] <= Sum(x) {
        if i > 0 { assert x[1..][i - 1] == x[i]; }
      }
    }
  }

  /** An average under a mixed strategy stays within the bounds of what it averages. */
  lemma SimplexAverage(x: Vec, y: Vec, lo: real, hi: real)
    requires |x| == |y| && Simplex(x) && Within(y, lo, hi)
    ensures lo <= Dot(x, y) <= hi
  {
    hide Dot;
    DotConst(x, lo);
    DotConst(x, hi);
    DotMono(x, Const(|x|, lo), y);
    DotMono(x, y, Const(|x|, hi));
  }

  /** The pure strategy that always plays index k. */
  function Pure(n: nat, k: nat): Vec {
    seq(n, i => if i == k then 1.0 else 0.0)
  }

  lemma {:induction false} DotPure(n: nat, k: nat, y: Vec)
    requires k < n == |y|
    ensures Dot(Pure(n, k), y) == y[k]
    ensures Simplex(Pure(n, k))
  {
    var p := Pure(n, k);
    if k == 0 {
      assert p[1..] == Const(n - 1, 0.0);
      DotComm(p[1..], y[1..]);
      DotConst(y[1..], 0.0);
      SumConst(n - 1, 0.0);
    } else {
      assert p[1..] == Pure(n - 1, k - 1);
      DotPure(n - 1, k - 1, y[1..]);
    }
  }

  // ----- matrices -----

  /** A non-empty rectangular matrix with n rows and m columns. */
  ghost predicate Shape(a: Mat, n: nat, m: nat) {
    |a| == n && forall i :: 0 <= i < n ==> |a[i]| == m
  }

  /** Entry i: what row i earns on average against the column mix y. */
  function MatVec(a: Mat, y: Vec): Vec
    requires forall i :: 0 <= i < |a| ==> |a[i]| == |y|
  {
    seq(|a|, i requires 0 <= i < |a| => Dot(a[i], y))
  }

  function Column(a: Mat, j: nat): Vec
    requires forall i :: 0 <= i < |a| ==> j < |a[i]|
  {
    seq(|a|, i requires 0 <= i < |a| => a[i][j])
  }

  function Transpose(a: Mat, m: nat): Mat
    requires forall i :: 0 <= i < |a| ==> |a[i]| == m
  {
    seq(m, j requires 0 <= j < m => Column(a, j))
  }

  /** Entry j: what the row mix x earns on average against column j. */
  function VecMat(x: Vec, a: Mat, m: nat): Vec
    requires Shape(a, |x|, m)
  {
    MatVec(Transpose(a, m), x)
  }

  /** The expected payoff of the row mix x against the column mix y. */
  function Bilinear(x: Vec, a: Mat, y: Vec): real
    requires Shape(a, |x|, |y|)
  {
    Dot(x, MatVec(a, y))
  }

  lemma VecMatCons(x: Vec, a: Mat, m: nat)
    requires Shape(a, |x|, m) && |x| > 0
    ensures VecMat(x, a, m) == Add(Scale(x[0], a[0]), VecMat(x[1..], a[1..], m))
  {
    var rest := VecMat(x[1..], a[1..], m);
    var head := Scale(x[0], a[0]);
    forall j | 0 <= j < m ensures VecMat(x, a, m)[j] == Add(head, rest)[j] {
      assert Column(a, j)[1..] == Column(a[1..], j);
      assert head[j] == x[0] * a[0][j];
    }
  }

  /** Summing a double sum by rows or by columns gives the same number. */
  lemma {:induction false} Exchange(x: Vec, a: Mat, y: Vec)
    requires Shape(a, |x|, |y|)
    ensures Bilinear(x, a, y) == Dot(y, VecMat(x, a, |y|))
  {
    if x == [] {
      assert VecMat(x, a, |y|) == Const(|y|, 0.0);
      DotConst(y, 0.0);
    } else {
      Exchange(x[1..], a[1..], y);
      assert MatVec(a, y)[1..] == MatVec(a[1..], y);
      VecMatCons(x, a, |y|);
      var rest := VecMat(x[1..], a[1..], |y|);
      DotAdd(y, Scale(x[0], a[0]), rest);
      DotScale(y, x[0], a[0]);
      DotComm(y, a[0]);
    }
  }

  // ----- extreme entries -----

  function Max(x: Vec): (r: real)
    requires x != []
    ensures r in x && forall i :: 0 <= i < |x| ==> x[i] <= r
  {
    if |x| == 1 then x[0] else
      var rest := Max(x[1..]);
      assert forall i :: 1 <= i < |x| ==> x[i] == x[1..][i - 1];
      if x[0] >= rest then x[0] else rest
  }

  function Min(x: Vec): (r: real)
    requires x != []
    ensures r in x && forall i :: 0 <= i < |x| ==> r <= x[i]
  {
    if |x| == 1 then x[0] else
      var rest := Min(x[1..]);
      assert forall i :: 1 <= i < |x| ==> x[i] == x[1..][i - 1];
      if x[0] <= rest then x[0] else rest
  }
}
