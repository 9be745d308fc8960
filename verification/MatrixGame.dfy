/** Constant-sum matrix games: the row player maximizes, the column player
    minimizes. Notions of guarantee, saddle point and value, and how they move
    under a change of payoff units and under a swap of the two players. */
module MatrixGame {
  import opened Vectors

  /** A payoff matrix with at least one row and one column. */
  ghost predicate Game(a: Mat, n: nat, m: nat) {
    n > 0 && m > 0 && Shape(a, n, m)
  }

  function PositivePart(w: real): real {
    if w > 0.0 then w else 0.0
  }

  function Clamped(weights: Vec): Vec {
    seq(|weights|, i requires 0 <= i < |weights| => PositivePart(weights[i]))
  }

  /** Clamps negatives to zero and rescales to total mass one; uniform when
      nothing positive remains. */
  function Normalize(weights: Vec): (r: Vec)
    requires weights != []
    ensures |r| == |weights| && Simplex(r)
  {
    var clamped := Clamped(weights);
    var total := Sum(clamped);
    SumNonNeg(clamped);
    if total <= 0.0 then
      var n := |weights|;
      SumConst(n, 1.0 / n as real);
      Const(n, 1.0 / n as real)
    else
      SumScale(1.0 / total, clamped);
      ScaleNonNeg(1.0 / total, clamped);
      Scale(1.0 / total, clamped)
  }

  /** What normalizing preserves: the proportions of the positive weights. */
  lemma NormalizeProportional(weights: Vec, i: nat)
    requires i < |weights| && exists k :: 0 <= k < |weights| && weights[k] > 0.0
    ensures Sum(Clamped(weights)) > 0.0
    ensures Times(Normalize(weights)[i], Sum(Clamped(weights))) == PositivePart(weights[i])
  {
    hide Sum, Scale;
    var c := Clamped(weights);
    SumNonNeg(c);
    var k :| 0 <= k < |weights| && weights[k] > 0.0;
    assert c[k] == weights[k];
    assert Normalize(weights) == Scale(1.0 / Sum(c), c);
    hide Normalize, Times;
    assert 1.0 / Sum(c) * Sum(c) == 1.0;
    ShareOfTotal(c, 1.0 / Sum(c), Sum(c), i);
  }

  lemma ShareOfTotal(c: Vec, part: real, total: real, i: nat)
    requires i < |c| && part * total == 1.0
    ensures Times(Scale(part, c)[i], total) == c[i]
  {
    assert part * c[i] * total == c[i] * (part * total);
  }

  /** And without positive weights all shares are equal. */
  lemma NormalizeUniform(weights: Vec, i: nat)
    requires i < |weights| && forall k :: 0 <= k < |weights| ==> weights[k] <= 0.0
    ensures Normalize(weights)[i] == 1.0 / |weights| as real
  {
    assert Clamped(weights) == Const(|weights|, 0.0);
    SumConst(|weights|, 0.0);
  }

  lemma ScaleNonNeg(c: real, x: Vec)
    requires c >= 0.0 && NonNeg(x)
    ensures NonNeg(Scale(c, x))
  {}

  /** Upper value minus lower value of a strategy pair. */
  function MaxminGap(a: Mat, row: Vec, col: Vec): real
    requires Game(a, |row|, |col|)
  {
    Max(MatVec(a, col)) - Min(VecMat(row, a, |col|))
  }

  // ----- saddle points -----

  /** The row mix x earns at least g against every column. */
  ghost predicate Guarantees(x: Vec, a: Mat, m: nat, g: real)
    requires Shape(a, |x|, m)
  {
    forall j :: 0 <= j < m ==> VecMat(x, a, m)[j] >= g
  }

  /** The column mix y concedes at most g to every row. */
  ghost predicate Concedes(y: Vec, a: Mat, g: real)
    requires Shape(a, |a|, |y|)
  {
    forall i :: 0 <= i < |a| ==> MatVec(a, y)[i] <= g
  }

  /** (x, y) is a saddle point with value v, up to d on each side. */
  ghost predicate Saddle(a: Mat, x: Vec, y: Vec, v: real, d: real)
  {
    && Game(a, |x|, |y|) && Simplex(x) && Simplex(y)
    && Guarantees(x, a, |y|, v - d)
    && Concedes(y, a, v + d)
  }

  ghost predicate IsValue(a: Mat, v: real) {
    exists x, y :: Saddle(a, x, y, v, 0.0)
  }

  /** What a row mix guarantees column by column it guarantees against every mix. */
  lemma GuaranteeAgainstMix(x: Vec, a: Mat, y: Vec, g: real)
    requires Game(a, |x|, |y|) && Simplex(y) && Guarantees(x, a, |y|, g)
    ensures Bilinear(x, a, y) >= g
  {
    hide Dot;
    Exchange(x, a, y);
    var c := VecMat(x, a, |y|);
    DotConst(y, g);
    DotMono(y, Const(|y|, g), c);
  }

  lemma ConcessionAgainstMix(x: Vec, a: Mat, y: Vec, g: real)
    requires Game(a, |x|, |y|) && Simplex(x) && Concedes(y, a, g)
    ensures Bilinear(x, a, y) <= g
  {
    hide Dot;
    DotConst(x, g);
    DotMono(x, MatVec(a, y), Const(|x|, g));
  }

  /** Two approximate saddle points of one game have nearly the same value;
      exact ones have the same value. */
  lemma ValueUnique(a: Mat, x: Vec, y: Vec, v: real, d: real, x': Vec, y': Vec, v': real, d': real)
    requires Saddle(a, x, y, v, d) && Saddle(a, x', y', v', d')
    ensures -(d + d') <= v - v' <= d + d'
  {
    GuaranteeAgainstMix(x, a, y', v - d);
    ConcessionAgainstMix(x, a, y', v' + d');
    GuaranteeAgainstMix(x', a, y, v' - d');
    ConcessionAgainstMix(x', a, y, v + d);
  }

  // ----- change of units -----

  /** Every payoff p becomes base + unit * p. */
  function AffineMat(a: Mat, base: real, unit: real): Mat {
    seq(|a|, i requires 0 <= i < |a| => Shift(Scale(unit, a[i]), base))
  }

  lemma AffineDot(x: Vec, y: Vec, base: real, unit: real)
    requires |x| == |y| && Sum(x) == 1.0
    ensures Dot(x, Shift(Scale(unit, y), base)) == base + unit * Dot(x, y)
  {
    hide Dot;
    MixShift(x, Scale(unit, y), base);
    DotScale(x, unit, y);
  }

  lemma AffineColumn(a: Mat, m: nat, j: nat, base: real, unit: real)
    requires j < m && forall i :: 0 <= i < |a| ==> |a[i]| == m
    ensures Column(AffineMat(a, base, unit), j) == Shift(Scale(unit, Column(a, j)), base)
  {
    hide Dot;
    var b := AffineMat(a, base, unit);
    forall i | 0 <= i < |a| ensures Column(b, j)[i] == Shift(Scale(unit, Column(a, j)), base)[i] {
      assert b[i] == Shift(Scale(unit, a[i]), base);
      assert Scale(unit, a[i])[j] == unit * a[i][j] == Scale(unit, Column(a, j))[i];
    }
  }

  lemma AffineGuarantee(a: Mat, x: Vec, m: nat, g: real, base: real, unit: real)
    requires Game(a, |x|, m) && Simplex(x) && unit >= 0.0 && Guarantees(x, a, m, g)
    ensures Guarantees(x, AffineMat(a, base, unit), m, base + unit * g)
  {
    hide Dot;
    var b := AffineMat(a, base, unit);
    forall j | 0 <= j < m ensures VecMat(x, b, m)[j] >= base + unit * g {
      AffineColumn(a, m, j, base, unit);
      AffineDot(x, Column(a, j), base, unit);
      DotComm(x, Column(a, j));
      DotComm(x, Column(b, j));
      assert VecMat(x, a, m)[j] == Dot(Column(a, j), x);
      MulMono(unit, g, Dot(x, Column(a, j)));
    }
  }

  lemma AffineConcession(a: Mat, y: Vec, g: real, base: real, unit: real)
    requires Shape(a, |a|, |y|) && Simplex(y) && unit >= 0.0 && Concedes(y, a, g)
    ensures Concedes(y, AffineMat(a, base, unit), base + unit * g)
  {
    hide Dot;
    var b := AffineMat(a, base, unit);
    forall i | 0 <= i < |a| ensures MatVec(b, y)[i] <= base + unit * g {
      AffineDot(y, a[i], base, unit);
      DotComm(y, a[i]);
      DotComm(y, b[i]);
      assert MatVec(a, y)[i] == Dot(a[i], y);
      MulMono(unit, Dot(y, a[i]), g);
    }
  }

  /** Changing payoff units keeps the saddle point and moves its value along. */
  lemma AffineSaddle(a: Mat, x: Vec, y: Vec, v: real, d: real, base: real, unit: real)
    requires Saddle(a, x, y, v, d) && unit >= 0.0
    ensures Saddle(AffineMat(a, base, unit), x, y, base + unit * v, unit * d)
  {
    hide VecMat, MatVec, Simplex;
    AffineGuarantee(a, x, |y|, v - d, base, unit);
    AffineConcession(a, y, v + d, base, unit);
    UnitsApart(base, unit, v, d);
  }

  lemma UnitsApart(base: real, unit: real, v: real, d: real)
    ensures base + unit * (v - d) == base + unit * v - unit * d
    ensures base + unit * (v + d) == base + unit * v + unit * d
  {}

  // ----- swapping the players -----

  /** The same game seen by the column player: transposed, payoffs 1 - p. */
  function Complement(a: Mat, m: nat): Mat
    requires forall i :: 0 <= i < |a| ==> |a[i]| == m
  {
    AffineMat(Transpose(a, m), 1.0, -1.0)
  }

  lemma ComplementEntry(a: Mat, n: nat, m: nat)
    requires Shape(a, n, m)
    ensures Shape(Complement(a, m), m, n)
    ensures forall j, i :: 0 <= j < m && 0 <= i < n ==> Complement(a, m)[j][i] == 1.0 - a[i][j]
  {
    forall j, i | 0 <= j < m && 0 <= i < n ensures Complement(a, m)[j][i] == 1.0 - a[i][j] {
      assert Complement(a, m)[j] == Shift(Scale(-1.0, Column(a, j)), 1.0);
    }
  }

  lemma ComplementRow(a: Mat, x: Vec, m: nat, j: nat)
    requires Shape(a, |x|, m) && Sum(x) == 1.0 && j < m
    ensures Shape(Complement(a, m), m, |x|)
    ensures MatVec(Complement(a, m), x)[j] == 1.0 - VecMat(x, a, m)[j]
  {
    hide Dot;
    var b := Complement(a, m);
    ComplementEntry(a, |x|, m);
    assert b[j] == Shift(Scale(-1.0, Column(a, j)), 1.0);
    AffineDot(x, Column(a, j), 1.0, -1.0);
    DotComm(x, b[j]);
    DotComm(x, Column(a, j));
  }

  lemma ColumnOfComplement(a: Mat, n: nat, m: nat, i: nat)
    requires Shape(a, n, m) && i < n
    ensures Shape(Complement(a, m), m, n)
    ensures Column(Complement(a, m), i) == Shift(Scale(-1.0, a[i]), 1.0)
  {
    ComplementEntry(a, n, m);
    var column, flipped := Column(Complement(a, m), i), Shift(Scale(-1.0, a[i]), 1.0);
    hide Complement;
    assert forall j :: 0 <= j < m ==> column[j] == flipped[j];
  }

  lemma ComplementColumn(a: Mat, y: Vec, n: nat, i: nat)
    requires Shape(a, n, |y|) && Sum(y) == 1.0 && i < n
    ensures Shape(Complement(a, |y|), |y|, n)
    ensures VecMat(y, Complement(a, |y|), n)[i] == 1.0 - MatVec(a, y)[i]
  {
    hide Dot, Complement, Sum, Shift, Scale;
    ColumnOfComplement(a, n, |y|, i);
    var column := Column(Complement(a, |y|), i);
    assert Transpose(Complement(a, |y|), n)[i] == column;
    DotComm(y, column);
    AffineDot(y, a[i], 1.0, -1.0);
    DotComm(y, a[i]);
  }

  /** In the swapped game a row's payoff is one minus the old column's. */
  lemma ComplementUtilities(a: Mat, x: Vec, y: Vec)
    requires Shape(a, |x|, |y|) && Sum(x) == 1.0 && Sum(y) == 1.0
    ensures Shape(Complement(a, |y|), |y|, |x|)
    ensures MatVec(Complement(a, |y|), x) == Shift(Scale(-1.0, VecMat(x, a, |y|)), 1.0)
    ensures VecMat(y, Complement(a, |y|), |x|) == Shift(Scale(-1.0, MatVec(a, y)), 1.0)
  {
    hide Dot, Complement, Sum;
    ComplementEntry(a, |x|, |y|);
    forall j | 0 <= j < |y| ensures MatVec(Complement(a, |y|), x)[j] == 1.0 - VecMat(x, a, |y|)[j] {
      ComplementRow(a, x, |y|, j);
    }
    forall i | 0 <= i < |x| ensures VecMat(y, Complement(a, |y|), |x|)[i] == 1.0 - MatVec(a, y)[i] {
      ComplementColumn(a, y, |x|, i);
    }
  }

  /** A saddle point of a game, read by the other player, is a saddle point of
      the swapped game with value one minus the old value. */
  lemma ComplementSaddle(a: Mat, x: Vec, y: Vec, v: real, d: real)
    requires Saddle(a, x, y, v, d)
    ensures Saddle(Complement(a, |y|), y, x, 1.0 - v, d)
  {
    ComplementUtilities(a, x, y);
  }

  // ----- what a stage passes on to the stage before it -----

  ghost predicate EntriesAtLeast(b: Mat, a: Mat, n: nat, m: nat)
    requires Shape(a, n, m) && Shape(b, n, m)
  {
    forall i, j :: 0 <= i < n && 0 <= j < m ==> b[i][j] >= a[i][j]
  }

  ghost predicate EntriesWithin(b: Mat, n: nat, m: nat, lo: real, hi: real)
    requires Shape(b, n, m)
  {
    forall i, j :: 0 <= i < n && 0 <= j < m ==> lo <= b[i][j] <= hi
  }

  /** The weights x' put at least the share c of x on every row. */
  ghost predicate Covers(x': Vec, x: Vec, c: real)
    requires |x'| == |x|
  {
    forall i :: 0 <= i < |x| ==> x'[i] >= Scale(c, x)[i]
  }

  /** If x guarantees v in a, then in a game b that pays at least as much, and
      never less than floor, any mix covering the share c of x keeps that share
      of the excess of v over floor, against every column mix. */
  lemma StageBound(a: Mat, b: Mat, x: Vec, x': Vec, y: Vec, v: real, floor: real, top: real, c: real)
    requires Game(a, |x|, |y|) && Game(b, |x|, |y|) && |x'| == |x|
    requires Simplex(x) && Simplex(x') && Simplex(y) && 0.0 <= c <= 1.0
    requires Guarantees(x, a, |y|, v) && Covers(x', x, c)
    requires EntriesAtLeast(b, a, |x|, |y|) && EntriesWithin(b, |x|, |y|, floor, top)
    ensures floor + c * (v - floor) <= Bilinear(x', b, y) <= top
  {
    hide Dot;
    var ub := MatVec(b, y);
    forall i | 0 <= i < |x| ensures MatVec(a, y)[i] <= ub[i] && floor <= ub[i] <= top {
      DotComm(a[i], y);
      DotComm(b[i], y);
      DotMono(y, a[i], b[i]);
      SimplexAverage(y, b[i], floor, top);
    }
    GuaranteeAgainstMix(x, a, y, v);
    DotMono(x, MatVec(a, y), ub);
    SimplexAverage(x', ub, floor, top);
    ShareOfExcess(x, x', ub, v, floor, c);
  }

  lemma ShareOfExcess(x: Vec, x': Vec, u: Vec, v: real, floor: real, c: real)
    requires |x| == |x'| == |u| && Sum(x) == Sum(x') == 1.0 && 0.0 <= c && Covers(x', x, c)
    requires Dot(x, u) >= v && forall i :: 0 <= i < |u| ==> u[i] >= floor
    ensures Dot(x', u) >= floor + c * (v - floor)
  {
    hide Dot, Covers, Sum;
    var e := Shift(u, -floor);
    MixShift(x', u, -floor);
    MixShift(x, u, -floor);
    ShareOfGain(x, x', e, v - floor, c);
  }

  lemma ShareOfGain(x: Vec, x': Vec, e: Vec, g: real, c: real)
    requires |x| == |x'| == |e| && NonNeg(e) && Covers(x', x, c) && c >= 0.0
    requires Dot(x, e) >= g
    ensures Dot(x', e) >= c * g
  {
    hide Dot, Scale;
    DotComm(x', e);
    DotComm(x, e);
    DotScale(e, c, x);
    DotMono(e, Scale(c, x), x');
    MulMono(c, g, Dot(x, e));
  }
}
