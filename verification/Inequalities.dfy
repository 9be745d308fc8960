/** Systems of linear inequalities, solved by eliminating one variable after another:
    either a solution exists, or a combination of the inequalities that refutes it. */
module Inequalities {
  import opened Vectors

  /** A row r stands for the inequality that its product with the unknowns is at most
      zero. The first unknown is fixed to minus one, so r[0] is the right-hand side. */
  ghost predicate Rows(s: Mat, n: nat) {
    forall k :: 0 <= k < |s| ==> |s[k]| == n
  }

  ghost predicate Meets(s: Mat, z: Vec)
    requires Rows(s, |z|)
  {
    forall k :: 0 <= k < |s| ==> Dot(s[k], z) <= 0.0
  }

  ghost predicate Feasible(s: Mat, n: nat)
    requires Rows(s, n)
  {
    exists z: Vec :: |z| == n && n > 0 && z[0] == -1.0 && Meets(s, z)
  }

  // ----- combinations of rows -----

  function Comb(l: Vec, s: Mat, n: nat): (r: Vec)
    requires |l| == |s| && Rows(s, n)
    ensures |r| == n
  {
    if s == [] then Const(n, 0.0) else Add(Scale(l[0], s[0]), Comb(l[1..], s[1..], n))
  }

  /** r is a non-negative combination of the rows. */
  ghost predicate Cone(s: Mat, n: nat, r: Vec)
    requires Rows(s, n)
  {
    exists l: Vec :: |l| == |s| && NonNeg(l) && Comb(l, s, n) == r
  }

  /** An inequality that nothing meets: minus one times something negative is at most zero. */
  ghost predicate Absurd(r: Vec) {
    |r| > 0 && r[0] < 0.0 && forall k :: 1 <= k < |r| ==> r[k] == 0.0
  }

  ghost predicate Refuted(s: Mat, n: nat)
    requires Rows(s, n)
  {
    exists r: Vec :: Absurd(r) && Cone(s, n, r)
  }

  lemma {:induction false} CombZero(s: Mat, n: nat)
    requires Rows(s, n)
    ensures Comb(Const(|s|, 0.0), s, n) == Const(n, 0.0)
  {
    if s != [] {
      CombZero(s[1..], n);
      assert Const(|s|, 0.0)[1..] == Const(|s[1..]|, 0.0);
    }
  }

  lemma {:induction false} CombPure(s: Mat, n: nat, k: nat)
    requires Rows(s, n) && k < |s|
    ensures Comb(Pure(|s|, k), s, n) == s[k]
  {
    var p := Pure(|s|, k);
    if k == 0 {
      assert p[1..] == Const(|s[1..]|, 0.0);
      CombZero(s[1..], n);
      assert Add(Scale(1.0, s[0]), Const(n, 0.0)) == s[0];
    } else {
      assert p[1..] == Pure(|s[1..]|, k - 1);
      CombPure(s[1..], n, k - 1);
      assert Add(Scale(0.0, s[0]), s[k]) == s[k];
    }
  }

  lemma {:induction false} CombAdd(l: Vec, m: Vec, s: Mat, n: nat)
    requires |l| == |m| == |s| && Rows(s, n)
    ensures Comb(Add(l, m), s, n) == Add(Comb(l, s, n), Comb(m, s, n))
  {
    if s == [] {
      assert Add(Const(n, 0.0), Const(n, 0.0)) == Const(n, 0.0);
    } else {
      CombAdd(l[1..], m[1..], s[1..], n);
      assert Add(l, m)[1..] == Add(l[1..], m[1..]);
      Regroup(l[0], m[0], s[0], Comb(l[1..], s[1..], n), Comb(m[1..], s[1..], n));
    }
  }

  lemma Regroup(p: real, q: real, r: Vec, u: Vec, v: Vec)
    requires |r| == |u| == |v|
    ensures Add(Scale(p + q, r), Add(u, v)) == Add(Add(Scale(p, r), u), Add(Scale(q, r), v))
  {
    forall k | 0 <= k < |r|
      ensures Add(Scale(p + q, r), Add(u, v))[k] == Add(Add(Scale(p, r), u), Add(Scale(q, r), v))[k]
    {
      assert (p + q) * r[k] == p * r[k] + q * r[k];
    }
  }

  lemma {:induction false} CombScale(c: real, l: Vec, s: Mat, n: nat)
    requires |l| == |s| && Rows(s, n)
    ensures Comb(Scale(c, l), s, n) == Scale(c, Comb(l, s, n))
  {
    if s == [] {
      assert Scale(c, Const(n, 0.0)) == Const(n, 0.0);
    } else {
      hide Scale, Add;
      CombScale(c, l[1..], s[1..], n);
      ScaleTail(c, l);
      ScaledAt(c, l, 0);
      CombHere(Scale(c, l), s, n);
      CombHere(l, s, n);
      Distribute(c, l[0], Scale(c, l)[0], s[0], Comb(l[1..], s[1..], n));
    }
  }

  lemma Distribute(c: real, p: real, cp: real, r: Vec, u: Vec)
    requires |r| == |u| && cp == c * p
    ensures Add(Scale(cp, r), Scale(c, u)) == Scale(c, Add(Scale(p, r), u))
  {
    forall k | 0 <= k < |r| ensures Add(Scale(cp, r), Scale(c, u))[k] == Scale(c, Add(Scale(p, r), u))[k] {
      assert cp * r[k] == c * (p * r[k]);
      assert c * (p * r[k]) + c * u[k] == c * (p * r[k] + u[k]);
    }
  }

  /** A combination of inequalities is an inequality about the same unknowns. */
  lemma {:induction false} CombDot(l: Vec, s: Mat, z: Vec)
    requires |l| == |s| && Rows(s, |z|)
    ensures Dot(Comb(l, s, |z|), z) == Dot(l, MatVec(s, z))
  {
    if s == [] {
      DotComm(Const(|z|, 0.0), z);
      DotConst(z, 0.0);
    } else {
      CombDot(l[1..], s[1..], z);
      assert MatVec(s, z)[1..] == MatVec(s[1..], z);
      var first, rest := Scale(l[0], s[0]), Comb(l[1..], s[1..], |z|);
      DotComm(Add(first, rest), z);
      DotAdd(z, first, rest);
      DotComm(rest, z);
      DotScale(z, l[0], s[0]);
      DotComm(z, s[0]);
    }
  }

  lemma ConeHas(s: Mat, n: nat, k: nat)
    requires Rows(s, n) && k < |s|
    ensures Cone(s, n, s[k])
  {
    CombPure(s, n, k);
    DotPure(|s|, k, Const(|s|, 0.0));
  }

  lemma ConeAdd(s: Mat, n: nat, r: Vec, t: Vec)
    requires Rows(s, n) && Cone(s, n, r) && Cone(s, n, t)
    ensures |r| == |t| && Cone(s, n, Add(r, t))
  {
    var l: Vec :| |l| == |s| && NonNeg(l) && Comb(l, s, n) == r;
    var m: Vec :| |m| == |s| && NonNeg(m) && Comb(m, s, n) == t;
    CombAdd(l, m, s, n);
    assert NonNeg(Add(l, m));
  }

  lemma ConeScale(s: Mat, n: nat, c: real, r: Vec)
    requires Rows(s, n) && Cone(s, n, r) && c >= 0.0
    ensures Cone(s, n, Scale(c, r))
  {
    var l: Vec :| |l| == |s| && NonNeg(l) && Comb(l, s, n) == r;
    CombScale(c, l, s, n);
    forall k | 0 <= k < |l| ensures Scale(c, l)[k] >= 0.0 { MulNonNeg(c, l[k]); }
    assert NonNeg(Scale(c, l));
  }

  // ----- eliminating the last unknown -----

  function Head(r: Vec): Vec
    requires r != []
  {
    r[..|r| - 1]
  }

  function Last(r: Vec): real
    requires r != []
  {
    r[|r| - 1]
  }

  /** The two rows added so that the last unknown cancels. */
  function Cross(p: Vec, q: Vec): Vec
    requires |p| == |q| > 0 && Last(p) > 0.0 > Last(q)
  {
    Add(Scale(1.0 / Last(p), Head(p)), Scale(-1.0 / Last(q), Head(q)))
  }

  /** The rows without the last unknown. */
  function Flat(s: Mat, n: nat): Mat
    requires Rows(s, n + 1)
  {
    if s == [] then []
    else (if Last(s[0]) == 0.0 then [Head(s[0])] else []) + Flat(s[1..], n)
  }

  function CrossAll(p: Vec, s: Mat, n: nat): Mat
    requires Rows(s, n + 1) && |p| == n + 1 && Last(p) > 0.0
  {
    if s == [] then []
    else (if Last(s[0]) < 0.0 then [Cross(p, s[0])] else []) + CrossAll(p, s[1..], n)
  }

  function Pairs(ps: Mat, s: Mat, n: nat): Mat
    requires Rows(ps, n + 1) && Rows(s, n + 1)
  {
    if ps == [] then []
    else (if Last(ps[0]) > 0.0 then CrossAll(ps[0], s, n) else []) + Pairs(ps[1..], s, n)
  }

  function Eliminated(s: Mat, n: nat): Mat
    requires Rows(s, n + 1)
  {
    Flat(s, n) + Pairs(s, s, n)
  }

  lemma {:induction false} FlatHas(s: Mat, n: nat, k: nat)
    requires Rows(s, n + 1) && k < |s| && Last(s[k]) == 0.0
    ensures Head(s[k]) in Flat(s, n)
  {
    if k > 0 { FlatHas(s[1..], n, k - 1); }
  }

  lemma {:induction false} FlatOnly(s: Mat, n: nat, t: Vec)
    requires Rows(s, n + 1) && t in Flat(s, n)
    ensures |t| == n && exists k :: 0 <= k < |s| && Last(s[k]) == 0.0 && t == Head(s[k])
  {
    if s != [] {
      if t in Flat(s[1..], n) {
        FlatOnly(s[1..], n, t);
        var k :| 0 <= k < |s[1..]| && Last(s[1..][k]) == 0.0 && t == Head(s[1..][k]);
        assert s[k + 1] == s[1..][k];
      }
    }
  }

  lemma {:induction false} CrossAllHas(p: Vec, s: Mat, n: nat, k: nat)
    requires Rows(s, n + 1) && |p| == n + 1 && Last(p) > 0.0 && k < |s| && Last(s[k]) < 0.0
    ensures Cross(p, s[k]) in CrossAll(p, s, n)
  {
    if k > 0 { CrossAllHas(p, s[1..], n, k - 1); }
  }

  lemma {:induction false} CrossAllOnly(p: Vec, s: Mat, n: nat, t: Vec)
    requires Rows(s, n + 1) && |p| == n + 1 && Last(p) > 0.0 && t in CrossAll(p, s, n)
    ensures exists k :: 0 <= k < |s| && Last(s[k]) < 0.0 && t == Cross(p, s[k])
  {
    if s != [] {
      if t in CrossAll(p, s[1..], n) {
        CrossAllOnly(p, s[1..], n, t);
        var k :| 0 <= k < |s[1..]| && Last(s[1..][k]) < 0.0 && t == Cross(p, s[1..][k]);
        assert s[k + 1] == s[1..][k];
      }
    }
  }

  lemma {:induction false} PairsHas(ps: Mat, s: Mat, n: nat, i: nat, k: nat)
    requires Rows(ps, n + 1) && Rows(s, n + 1) && i < |ps| && k < |s| && Last(ps[i]) > 0.0 > Last(s[k])
    ensures Cross(ps[i], s[k]) in Pairs(ps, s, n)
  {
    if i > 0 { PairsHas(ps[1..], s, n, i - 1, k); } else { CrossAllHas(ps[0], s, n, k); }
  }

  lemma {:induction false} PairsOnly(ps: Mat, s: Mat, n: nat, t: Vec)
    requires Rows(ps, n + 1) && Rows(s, n + 1) && t in Pairs(ps, s, n)
    ensures exists i, k :: 0 <= i < |ps| && 0 <= k < |s| && Last(ps[i]) > 0.0 > Last(s[k]) && t == Cross(ps[i], s[k])
  {
    if ps != [] {
      if t in Pairs(ps[1..], s, n) {
        PairsOnly(ps[1..], s, n, t);
        var i, k :| 0 <= i < |ps[1..]| && 0 <= k < |s| && Last(ps[1..][i]) > 0.0 > Last(s[k])
                    && t == Cross(ps[1..][i], s[k]);
        assert ps[i + 1] == ps[1..][i];
      } else {
        CrossAllOnly(ps[0], s, n, t);
      }
    }
  }

  /** Every new row, without the last unknown, is a combination of the old ones. */
  lemma Derived(s: Mat, n: nat, t: Vec)
    requires Rows(s, n + 1) && t in Eliminated(s, n)
    ensures |t| == n && Cone(s, n + 1, t + [0.0])
  {
    hide Flat, Pairs, Cone, Cross;
    if t in Flat(s, n) {
      FlatOnly(s, n, t);
      var k :| 0 <= k < |s| && Last(s[k]) == 0.0 && t == Head(s[k]);
      assert t + [0.0] == s[k];
      ConeHas(s, n + 1, k);
    } else {
      PairsOnly(s, s, n, t);
      var i, k :| 0 <= i < |s| && 0 <= k < |s| && Last(s[i]) > 0.0 > Last(s[k]) && t == Cross(s[i], s[k]);
      DerivedCross(s, n, i, k);
    }
  }

  lemma DerivedCross(s: Mat, n: nat, i: nat, k: nat)
    requires Rows(s, n + 1) && i < |s| && k < |s| && Last(s[i]) > 0.0 > Last(s[k])
    ensures |Cross(s[i], s[k])| == n && Cone(s, n + 1, Cross(s[i], s[k]) + [0.0])
  {
    hide Cone;
    var p, q := s[i], s[k];
    var c, d := 1.0 / Last(p), -1.0 / Last(q);
    ConeHas(s, n + 1, i);
    ConeHas(s, n + 1, k);
    ConeScale(s, n + 1, c, p);
    ConeScale(s, n + 1, d, q);
    ConeAdd(s, n + 1, Scale(c, p), Scale(d, q));
    var sum, t := Add(Scale(c, p), Scale(d, q)), Cross(p, q);
    Inverse(Last(p));
    Inverse(Last(q));
    assert forall j :: 0 <= j < n ==> sum[j] == t[j];
    assert sum[n] == 0.0;
    assert sum == t + [0.0];
  }

  lemma Inverse(p: real)
    requires p != 0.0
    ensures 1.0 / p * p == 1.0 && -1.0 / p * p == -1.0
  {}

  /** What the new rows refute the old ones refute. */
  lemma {:induction false} ConeLift(s: Mat, n: nat, t: Mat, l: Vec)
    requires Rows(s, n + 1) && Rows(t, n) && |l| == |t| && NonNeg(l)
    requires forall k :: 0 <= k < |t| ==> Cone(s, n + 1, t[k] + [0.0])
    ensures Cone(s, n + 1, Comb(l, t, n) + [0.0])
  {
    if t == [] {
      CombZero(s, n + 1);
      assert Const(n, 0.0) + [0.0] == Const(n + 1, 0.0);
      assert NonNeg(Const(|s|, 0.0));
    } else {
      hide Cone, Comb;
      ConeLift(s, n, t[1..], l[1..]);
      ConeScale(s, n + 1, l[0], t[0] + [0.0]);
      ConeAdd(s, n + 1, Scale(l[0], t[0] + [0.0]), Comb(l[1..], t[1..], n) + [0.0]);
      LiftedSum(l[0], t[0], Comb(l[1..], t[1..], n));
      CombHere(l, t, n);
    }
  }

  lemma CombHere(l: Vec, t: Mat, n: nat)
    requires |l| == |t| > 0 && Rows(t, n)
    ensures Comb(l, t, n) == Add(Scale(l[0], t[0]), Comb(l[1..], t[1..], n))
  {}

  lemma LiftedSum(c: real, r: Vec, u: Vec)
    requires |r| == |u|
    ensures Add(Scale(c, r + [0.0]), u + [0.0]) == Add(Scale(c, r), u) + [0.0]
  {
    var left, right, n := Add(Scale(c, r + [0.0]), u + [0.0]), Add(Scale(c, r), u) + [0.0], |r|;
    assert (r + [0.0])[n] == 0.0 && (u + [0.0])[n] == 0.0;
    assert left[n] == 0.0 == right[n];
    assert forall k :: 0 <= k < n ==> left[k] == right[k];
  }

  // ----- extending a solution -----

  /** What a row demands of the last unknown: at least this, or at most this. */
  function Demand(r: Vec, z: Vec): real
    requires |r| == |z| + 1 && Last(r) != 0.0
  {
    -Dot(Head(r), z) * (1.0 / Last(r))
  }

  function Lowers(s: Mat, z: Vec): Vec
    requires Rows(s, |z| + 1)
  {
    if s == [] then [] else (if Last(s[0]) < 0.0 then [Demand(s[0], z)] else []) + Lowers(s[1..], z)
  }

  function Uppers(s: Mat, z: Vec): Vec
    requires Rows(s, |z| + 1)
  {
    if s == [] then [] else (if Last(s[0]) > 0.0 then [Demand(s[0], z)] else []) + Uppers(s[1..], z)
  }

  lemma {:induction false} LowersHas(s: Mat, z: Vec, k: nat)
    requires Rows(s, |z| + 1) && k < |s| && Last(s[k]) < 0.0
    ensures Demand(s[k], z) in Lowers(s, z)
  {
    hide Demand;
    if k > 0 {
      assert s[1..][k - 1] == s[k];
      LowersHas(s[1..], z, k - 1);
    }
  }

  lemma {:induction false} UppersHas(s: Mat, z: Vec, k: nat)
    requires Rows(s, |z| + 1) && k < |s| && Last(s[k]) > 0.0
    ensures Demand(s[k], z) in Uppers(s, z)
  {
    hide Demand;
    if k > 0 {
      assert s[1..][k - 1] == s[k];
      UppersHas(s[1..], z, k - 1);
    }
  }

  lemma {:induction false} LowersOnly(s: Mat, z: Vec, v: real)
    requires Rows(s, |z| + 1) && v in Lowers(s, z)
    ensures exists k :: 0 <= k < |s| && Last(s[k]) < 0.0 && v == Demand(s[k], z)
  {
    hide Demand;
    if s != [] {
      if v in Lowers(s[1..], z) {
        LowersOnly(s[1..], z, v);
        var k :| 0 <= k < |s[1..]| && Last(s[1..][k]) < 0.0 && v == Demand(s[1..][k], z);
        assert s[k + 1] == s[1..][k];
      } else {
        assert Last(s[0]) < 0.0 && v == Demand(s[0], z);
      }
    }
  }

  lemma DotSplit(r: Vec, z: Vec, t: real)
    requires |r| == |z| + 1
    ensures Dot(r, z + [t]) == Dot(Head(r), z) + Last(r) * t
  {
    DotConcat(Head(r), [Last(r)], z, [t]);
    assert r == Head(r) + [Last(r)];
    assert Dot([Last(r)], [t]) == Last(r) * t + Dot([], []);
  }

  lemma {:induction false} DotConcat(x: Vec, y: Vec, u: Vec, v: Vec)
    requires |x| == |u| && |y| == |v|
    ensures Dot(x + y, u + v) == Dot(x, u) + Dot(y, v)
  {
    if x == [] {
      assert x + y == y && u + v == v;
    } else {
      DotConcat(x[1..], y, u[1..], v);
      assert (x + y)[1..] == x[1..] + y && (u + v)[1..] == u[1..] + v;
    }
  }

  /** A value of the last unknown between all demands. */
  function Middle(s: Mat, z: Vec): real
    requires Rows(s, |z| + 1)
  {
    if Lowers(s, z) != [] then Max(Lowers(s, z))
    else if Uppers(s, z) != [] then Min(Uppers(s, z)) else 0.0
  }

  lemma CrossedDemands(s: Mat, z: Vec, i: nat, k: nat)
    requires Rows(s, |z| + 1) && i < |s| && k < |s| && Last(s[i]) > 0.0 > Last(s[k])
    requires Rows(Eliminated(s, |z|), |z|) && Meets(Eliminated(s, |z|), z)
    ensures Demand(s[k], z) <= Demand(s[i], z)
  {
    hide Dot, Cross, Pairs, Demand;
    PairsHas(s, s, |z|, i, k);
    var e := Eliminated(s, |z|);
    assert Cross(s[i], s[k]) in e;
    MetMember(e, z, Cross(s[i], s[k]));
    CrossDot(s[i], s[k], z);
  }

  lemma MetMember(e: Mat, z: Vec, r: Vec)
    requires Rows(e, |z|) && Meets(e, z) && r in e
    ensures |r| == |z| && Dot(r, z) <= 0.0
  {
    hide Dot;
    var j :| 0 <= j < |e| && e[j] == r;
    assert Dot(e[j], z) <= 0.0;
  }

  lemma CrossDot(p: Vec, q: Vec, z: Vec)
    requires |p| == |q| == |z| + 1 && Last(p) > 0.0 > Last(q)
    ensures |Cross(p, q)| == |z|
    ensures Dot(Cross(p, q), z) == Demand(q, z) - Demand(p, z)
  {
    hide Dot;
    var c, d := 1.0 / Last(p), -1.0 / Last(q);
    DotComm(Cross(p, q), z);
    DotAdd(z, Scale(c, Head(p)), Scale(d, Head(q)));
    DotScale(z, c, Head(p));
    DotScale(z, d, Head(q));
    DotComm(z, Head(p));
    DotComm(z, Head(q));
    MinusInverse(Dot(Head(q), z), Last(q));
  }

  lemma MinusInverse(v: real, c: real)
    requires c != 0.0
    ensures -1.0 / c * v == -v * (1.0 / c)
  {
    assert -1.0 / c == -(1.0 / c);
  }

  lemma MiddleWithin(s: Mat, z: Vec, k: nat)
    requires Rows(s, |z| + 1) && k < |s|
    requires Rows(Eliminated(s, |z|), |z|) && Meets(Eliminated(s, |z|), z)
    ensures Last(s[k]) < 0.0 ==> Demand(s[k], z) <= Middle(s, z)
    ensures Last(s[k]) > 0.0 ==> Middle(s, z) <= Demand(s[k], z)
  {
    hide Dot, Eliminated, Lowers, Uppers, Demand;
    if Last(s[k]) < 0.0 {
      LowersHas(s, z, k);
    } else if Last(s[k]) > 0.0 {
      UppersHas(s, z, k);
      if Lowers(s, z) != [] {
        LowersOnly(s, z, Max(Lowers(s, z)));
        var i :| 0 <= i < |s| && Last(s[i]) < 0.0 && Max(Lowers(s, z)) == Demand(s[i], z);
        CrossedDemands(s, z, k, i);
      }
    }
  }

  lemma Extends(s: Mat, z: Vec)
    requires Rows(s, |z| + 1) && Rows(Eliminated(s, |z|), |z|) && Meets(Eliminated(s, |z|), z)
    ensures Meets(s, z + [Middle(s, z)])
  {
    hide Dot, Middle, Eliminated, Demand;
    var t := Middle(s, z);
    forall k | 0 <= k < |s| ensures Dot(s[k], z + [t]) <= 0.0 {
      DotSplit(s[k], z, t);
      MiddleWithin(s, z, k);
      if Last(s[k]) != 0.0 {
        Demanded(s[k], z, t);
      } else {
        FlatIn(s, |z|, k);
        MetMember(Eliminated(s, |z|), z, Head(s[k]));
        NoLast(Last(s[k]), t);
      }
    }
  }

  lemma NoLast(c: real, t: real)
    requires c == 0.0
    ensures c * t == 0.0
  {}

  lemma FlatIn(s: Mat, n: nat, k: nat)
    requires Rows(s, n + 1) && k < |s| && Last(s[k]) == 0.0
    ensures Head(s[k]) in Eliminated(s, n)
  {
    FlatHas(s, n, k);
  }

  lemma Demanded(r: Vec, z: Vec, t: real)
    requires |r| == |z| + 1 && Last(r) != 0.0
    requires Last(r) < 0.0 ==> Demand(r, z) <= t
    requires Last(r) > 0.0 ==> t <= Demand(r, z)
    ensures Dot(Head(r), z) + Last(r) * t <= 0.0
  {
    hide Dot;
    var v, c := Dot(Head(r), z), Last(r);
    Inverse(c);
    Cleared(v, c, 1.0 / c);
    if c < 0.0 { MulMono(-c, Demand(r, z), t); } else { MulMono(c, t, Demand(r, z)); }
  }

  lemma Cleared(v: real, c: real, inverse: real)
    requires inverse * c == 1.0
    ensures c * (-v * inverse) == -v && -c * (-v * inverse) == v
  {
    assert c * (-v * inverse) == -v * (inverse * c);
  }

  // ----- the alternative -----

  /** Every finite system of linear inequalities has a solution, or a non-negative
      combination of its rows that is absurd. */
  lemma {:induction false} Alternative(s: Mat, n: nat)
    requires Rows(s, n) && n > 0
    ensures Feasible(s, n) || Refuted(s, n)
    decreases n
  {
    hide Eliminated, Comb, NonNeg, Absurd, Middle;
    if n == 1 {
      Constants(s);
    } else {
      var e := Eliminated(s, n - 1);
      forall k | 0 <= k < |e| ensures |e[k]| == n - 1 && Cone(s, n, e[k] + [0.0]) { Derived(s, n - 1, e[k]); }
      assert Rows(e, n - 1);
      Alternative(e, n - 1);
      if Feasible(e, n - 1) {
        var z: Vec :| |z| == n - 1 && z[0] == -1.0 && Meets(e, z);
        Extends(s, z);
        ExtensionSolves(s, z, Middle(s, z));
      } else {
        var r: Vec :| Absurd(r) && Cone(e, n - 1, r);
        var l: Vec :| |l| == |e| && NonNeg(l) && Comb(l, e, n - 1) == r;
        ConeLift(s, n - 1, e, l);
        StillAbsurd(r);
      }
    }
  }

  lemma ExtensionSolves(s: Mat, z: Vec, t: real)
    requires Rows(s, |z| + 1) && |z| > 0 && z[0] == -1.0 && Meets(s, z + [t])
    ensures Feasible(s, |z| + 1)
  {
    assert (z + [t])[0] == -1.0;
  }

  lemma StillAbsurd(r: Vec)
    requires Absurd(r)
    ensures Absurd(r + [0.0])
  {}

  lemma Constants(s: Mat)
    requires Rows(s, 1)
    ensures Feasible(s, 1) || Refuted(s, 1)
  {
    var z: Vec := [-1.0];
    if k: nat :| k < |s| && s[k][0] < 0.0 {
      ConeHas(s, 1, k);
      assert Absurd(s[k]);
    } else {
      forall k | 0 <= k < |s| ensures Dot(s[k], z) <= 0.0 {
        assert Dot(s[k], z) == s[k][0] * -1.0 + Dot(s[k][1..], z[1..]);
      }
      assert Meets(s, z);
    }
  }
}
