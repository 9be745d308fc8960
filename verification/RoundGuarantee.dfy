/** What a solved round is worth when it is actually played: guarantees against
    every opponent, who may mix and may use the whole history. */
module RoundGuarantee {
  import opened GameRules
  import opened Vectors
  import opened MatrixGame
  import opened RegretMatching
  import opened ZeroSum
  import opened StageGame
  import opened RoundSolver

  /** Past turns: my action, then the opponent's. */
  type History = seq<(Action, Action)>

  /** A mixed, history-dependent way to play: history, own ki, other's ki and turn
      to a mix over one's own affordable actions. */
  type Policy = (History, int, int, int) -> Vec

  ghost predicate MixFor(x: Vec, ki: int) {
    |x| == |AffordableActions(ki)| && Simplex(x)
  }

  ghost predicate Legal(p: Policy) {
    forall h, own, other, t :: KiRange(own) ==> MixFor(p(h, own, other, t), own)
  }

  /** Expected worth of the rest of the round, with me to play row and the opponent col. */
  ghost function Expected(row: Policy, col: Policy, w: Leaves, myKi: int, oppKi: int, turn: int, h: History): real
    requires Legal(row) && Legal(col) && KiRange(myKi) && KiRange(oppKi)
    decreases TURN_LIMIT - turn
  {
    var m := PlayMatrix(row, col, w, myKi, oppKi, turn, h);
    Bilinear(row(h, myKi, oppKi, turn), m, col(h, oppKi, myKi, turn))
  }

  /** Expected worth after each pair of actions. */
  ghost function PlayMatrix(row: Policy, col: Policy, w: Leaves, myKi: int, oppKi: int, turn: int, h: History): (r: Mat)
    requires Legal(row) && Legal(col)
    ensures Shape(r, |AffordableActions(myKi)|, |AffordableActions(oppKi)|)
    decreases TURN_LIMIT - turn, 0
  {
    var rows, cols := AffordableActions(myKi), AffordableActions(oppKi);
    seq(|rows|, i requires 0 <= i < |rows| =>
      seq(|cols|, j requires 0 <= j < |cols| =>
        StagePayoff(rows[i], cols[j], myKi, oppKi, turn, w, (a, b, t) =>
          if turn < t <= TURN_LIMIT && KiRange(a) && KiRange(b)
          then Expected(row, col, w, a, b, t, h + [(rows[i], cols[j])]) else 0.0)))
  }

  lemma ExpectedHere(row: Policy, col: Policy, w: Leaves, myKi: int, oppKi: int, turn: int, h: History)
    requires Legal(row) && Legal(col) && KiRange(myKi) && KiRange(oppKi)
    ensures Expected(row, col, w, myKi, oppKi, turn, h)
         == Bilinear(row(h, myKi, oppKi, turn), PlayMatrix(row, col, w, myKi, oppKi, turn, h),
                     col(h, oppKi, myKi, turn))
  {}

  // ----- the general bound -----

  /** A number in [0, 1] for every situation: a share of something that is kept. */
  type Share = (History, int, int, int) -> real

  /** An action that beats every legal reply. */
  ghost predicate BeatsAll(me: Action, oppKi: int) {
    forall o :: o in AffordableActions(oppKi) ==> ImmediateOutcome(me, o) == 1
  }

  /** The mix plays such an action for certain. */
  ghost predicate Finishes(x: Vec, myKi: int, oppKi: int) {
    exists k: nat :: k < |AffordableActions(myKi)| && x == Pure(|AffordableActions(myKi)|, k)
                 && BeatsAll(AffordableActions(myKi)[k], oppKi)
  }

  /** At every state the way of playing either keeps the share c of the solved mix
      or finishes the round on the spot. */
  ghost predicate KeepsShare(row: Policy, s: Solver, lam: real, c: Share)
    requires Sound(s) && Legal(row)
  {
    forall h, a, b, t :: KiRange(a) && KiRange(b) && 1 <= t <= TURN_LIMIT ==> KeepsShareAt(row, s, lam, c, h, a, b, t)
  }

  ghost predicate KeepsShareAt(row: Policy, s: Solver, lam: real, c: Share, h: History, a: int, b: int, t: int)
    requires Sound(s) && Legal(row) && KiRange(a) && KiRange(b)
  {
    MixLegal(s, LamLeaves(lam), a, b, t);
    && 0.0 <= c(h, a, b, t) <= 1.0
    && (Covers(row(h, a, b, t), Mix(s, LamLeaves(lam), a, b, t), c(h, a, b, t)) || Finishes(row(h, a, b, t), a, b))
  }

  /** k never exceeds the product of the shares c along any way the round can go on:
      one factor per turn, for every pair of actions that does not end the round, up
      to the end of the round or to a finish. */
  ghost predicate Sustained(row: Policy, k: Share, c: Share) {
    forall h, a, b, t :: KiRange(a) && KiRange(b) && 1 <= t <= TURN_LIMIT ==> SustainedAt(row, k, c, h, a, b, t)
  }

  ghost predicate SustainedAt(row: Policy, k: Share, c: Share, h: History, a: int, b: int, t: int) {
    && 0.0 <= k(h, a, b, t) <= 1.0
    && (Finishes(row(h, a, b, t), a, b) || k(h, a, b, t) <= c(h, a, b, t))
    && (Finishes(row(h, a, b, t), a, b) || t >= TURN_LIMIT || forall i, j ::
          0 <= i < |AffordableActions(a)| && 0 <= j < |AffordableActions(b)| ==>
          k(h, a, b, t) <= Times(c(h, a, b, t), Ahead(k, h, a, b, t, i, j)))
  }

  /** What k says after a pair of actions; nothing more can be lost once the round is over. */
  function Ahead(k: Share, h: History, a: int, b: int, t: int, i: nat, j: nat): real
    requires i < |AffordableActions(a)| && j < |AffordableActions(b)|
  {
    var me, opp := AffordableActions(a)[i], AffordableActions(b)[j];
    if ImmediateOutcome(me, opp) == 0 then k(h + [(me, opp)], KiAfter(me, a), KiAfter(opp, b), t + 1) else 1.0
  }

  /** The share k of what is at stake between winning and losing. */
  function Stake(w: Leaves, k: real): real {
    k * Span(w)
  }

  /** A normalized payoff p of which only the share k of the stake counts, in units w. */
  function Discounted(w: Leaves, k: real, p: real): real {
    w.loss + Stake(w, k) * p
  }

  ghost predicate Proper(w: Leaves, lam: real) {
    w.loss <= w.win && 0.0 <= lam <= 1.0 && w.draw == InUnits(w, lam)
  }

  lemma StakeRange(w: Leaves, k: real)
    requires 0.0 <= k && w.loss <= w.win
    ensures 0.0 <= Stake(w, k) && (k <= 1.0 ==> Stake(w, k) <= w.win - w.loss)
  {
    assert Span(w) == w.win - w.loss;
    hide Span;
    MulNonNeg(k, Span(w));
    if k <= 1.0 {
      MulAtMost(Span(w), k);
      assert k * Span(w) == Span(w) * k;
    }
  }

  /** No payoff of at most one is worth more than a win. */
  lemma DiscountBelowWin(w: Leaves, k: real, p: real)
    requires 0.0 <= k <= 1.0 && w.loss <= w.win && p <= 1.0
    ensures Discounted(w, k, p) <= w.win
  {
    hide Stake;
    StakeRange(w, k);
    MulAtMost(Stake(w, k), p);
  }

  lemma DiscountBelowLoss(w: Leaves, k: real, p: real)
    requires 0.0 <= k && w.loss <= w.win && p <= 0.0
    ensures Discounted(w, k, p) <= w.loss
  {
    hide Stake;
    StakeRange(w, k);
    MulMono(Stake(w, k), p, 0.0);
  }

  lemma DiscountLinear(w: Leaves, k: real, p: real, e: real)
    ensures Discounted(w, k, p - e) == Discounted(w, k, -e) + Stake(w, k) * p
  {
    hide Stake;
    var u := Stake(w, k);
    assert u * (p - e) == u * (-e) + u * p;
  }

  lemma DiscountShare(w: Leaves, c: real, k: real, p: real)
    ensures w.loss + c * (Discounted(w, k, p) - w.loss) == Discounted(w, c * k, p)
  {
    hide Span;
    assert c * (k * Span(w) * p) == c * k * Span(w) * p;
  }

  lemma UnitsInRange(w: Leaves, p: real)
    requires 0.0 <= Span(w) && 0.0 <= p <= 1.0
    ensures w.loss <= InUnits(w, p)
    ensures InUnits(w, p) <= w.loss + Span(w)
  {
    hide Span;
    MulNonNeg(Span(w), p);
    MulAtMost(Span(w), p);
  }

  lemma DrawInRange(w: Leaves, lam: real)
    requires Proper(w, lam)
    ensures w.loss <= w.draw <= w.win
  {
    hide InUnits;
    UnitsInRange(w, lam);
  }

  lemma FullStake(w: Leaves, lam: real)
    requires Proper(w, lam)
    ensures Discounted(w, 1.0, lam) == w.draw
  {
    hide Span;
  }

  /** The error accumulated over the turns still to come, at most d each. */
  function Slack(d: real, turn: int): real {
    (TURN_LIMIT + 1 - turn) as real * d
  }

  lemma SlackStep(d: real, turn: int)
    requires d >= 0.0 && turn <= TURN_LIMIT
    ensures Slack(d, turn) == Slack(d, turn + 1) + d && Slack(d, turn + 1) >= 0.0
  {
    var k := (TURN_LIMIT - turn) as real;
    assert (TURN_LIMIT + 1 - turn) as real == k + 1.0;
    assert (k + 1.0) * d == k * d + d;
    MulNonNeg(k, d);
  }

  /** One entry of the matrix actually played, against the entry the table was solved for. */
  lemma EntryBound(me: Action, opp: Action, myKi: int, oppKi: int, turn: int, w: Leaves, lam: real,
                   k: real, e: real, f: ValueFn, g: ValueFn)
    requires Proper(w, lam) && 0.0 <= k <= 1.0 && e >= 0.0
    requires turn >= TURN_LIMIT ==> k == 1.0
    requires turn < TURN_LIMIT && ImmediateOutcome(me, opp) == 0 ==>
      var a, b := KiAfter(me, myKi), KiAfter(opp, oppKi);
      Discounted(w, k, f(a, b, turn + 1) - e) <= g(a, b, turn + 1) <= w.win && w.loss <= g(a, b, turn + 1)
    ensures var p, q := StagePayoff(me, opp, myKi, oppKi, turn, LamLeaves(lam), f),
      StagePayoff(me, opp, myKi, oppKi, turn, w, g);
      Discounted(w, k, p - e) <= q <= w.win && w.loss <= q
  {
    DiscountBelowWin(w, k, 1.0 - e);
    DiscountBelowLoss(w, k, 0.0 - e);
    DrawInRange(w, lam);
    FullStake(w, lam);
    DiscountLinear(w, 1.0, lam, e);
    DiscountBelowLoss(w, 1.0, -e);
    hide Discounted;
  }

  /** Every payoff p of a matrix becomes Discounted(w, k, p - e). */
  ghost function DiscountedMat(a: Mat, w: Leaves, k: real, e: real): Mat {
    AffineMat(a, Discounted(w, k, -e), Stake(w, k))
  }

  lemma DiscountedEntry(a: Mat, n: nat, m: nat, w: Leaves, k: real, e: real, i: nat, j: nat)
    requires Shape(a, n, m) && i < n && j < m
    ensures Shape(DiscountedMat(a, w, k, e), n, m)
    ensures DiscountedMat(a, w, k, e)[i][j] == Discounted(w, k, a[i][j] - e)
  {
    hide Discounted, Stake;
    var unit, base := Stake(w, k), Discounted(w, k, -e);
    assert Scale(unit, a[i])[j] == unit * a[i][j];
    DiscountLinear(w, k, a[i][j], e);
  }

  lemma DiscountedGuarantee(a: Mat, x: Vec, m: nat, g: real, w: Leaves, k: real, e: real)
    requires Game(a, |x|, m) && Simplex(x) && Guarantees(x, a, m, g) && 0.0 <= k && w.loss <= w.win
    ensures Game(DiscountedMat(a, w, k, e), |x|, m)
    ensures Guarantees(x, DiscountedMat(a, w, k, e), m, Discounted(w, k, g - e))
  {
    hide Discounted, VecMat, Stake;
    StakeRange(w, k);
    AffineGuarantee(a, x, m, g, Discounted(w, k, -e), Stake(w, k));
    DiscountLinear(w, k, g, e);
  }

  /** From the entries of one stage to its expected worth: keeping a share of the
      solved mix keeps that share of the stage's value. */
  lemma StageStep(s: Solver, lam: real, d: real, w: Leaves, k: real, e: real, share: real, kept: real, slack: real,
                  top: real, myKi: int, oppKi: int, turn: int, m: Mat, x': Vec, y: Vec)
    requires kept == share * k && slack == e + d
    requires KiRange(myKi) && KiRange(oppKi) && turn <= TURN_LIMIT && 0.0 <= lam <= 1.0 && Accurate(s, d)
    requires w.loss <= w.win && 0.0 <= k && 0.0 <= share <= 1.0
    requires MixFor(x', myKi) && MixFor(y, oppKi)
    requires Game(m, |x'|, |y|) && EntriesWithin(m, |x'|, |y|, w.loss, top)
    requires forall i, j :: 0 <= i < |x'| && 0 <= j < |y| ==>
      m[i][j] >= Discounted(w, k, StageMatrix(myKi, oppKi, turn, LamLeaves(lam), Values(s, LamLeaves(lam)))[i][j] - e)
    requires |Mix(s, LamLeaves(lam), myKi, oppKi, turn)| == |x'|
      && Covers(x', Mix(s, LamLeaves(lam), myKi, oppKi, turn), share)
    ensures Discounted(w, kept, Value(s, LamLeaves(lam), myKi, oppKi, turn) - slack) <= Bilinear(x', m, y) <= top
  {
    hide Discounted, Value, StageMatrix, Accurate, Mix, DiscountedMat, Covers, Bilinear;
    var v, x := Value(s, LamLeaves(lam), myKi, oppKi, turn), Mix(s, LamLeaves(lam), myKi, oppKi, turn);
    var a := StageMatrix(myKi, oppKi, turn, LamLeaves(lam), Values(s, LamLeaves(lam)));
    var y' := StageSolved(s, lam, d, myKi, oppKi, turn);
    DiscountedGuarantee(a, x, |y|, v - d, w, k, e);
    var b := DiscountedMat(a, w, k, e);
    forall i, j | 0 <= i < |x| && 0 <= j < |y| ensures m[i][j] >= b[i][j] {
      DiscountedEntry(a, |x|, |y|, w, k, e, i, j);
    }
    StageBound(b, m, x, x', y, Discounted(w, k, v - d - e), w.loss, top, share);
    DiscountShare(w, share, k, v - d - e);
    assert v - d - e == v - slack;
  }

  /** The part q of everything. */
  function PartOf(w: Leaves, q: real): Leaves {
    Leaves(Times(q, w.win), Times(q, w.draw), Times(q, w.loss))
  }

  lemma PartIs(w: Leaves, q: real, p: real)
    requires 0.0 <= q && w.loss <= w.win
    ensures PartOf(w, q).loss <= PartOf(w, q).win
    ensures Discounted(PartOf(w, q), 1.0, p) == Times(q, Discounted(w, 1.0, p))
  {
    hide Discounted, Times;
    TimesApart(q, w.win, w.loss);
    WholeValue(w, p);
    WholeValue(PartOf(w, q), p);
    PartSum(w.loss, w.win - w.loss, q, p);
  }

  lemma WholeValue(w: Leaves, p: real)
    ensures Discounted(w, 1.0, p) == w.loss + Times(w.win - w.loss, p)
  {}

  lemma TimesApart(q: real, a: real, b: real)
    requires 0.0 <= q && b <= a
    ensures Times(q, a) - Times(q, b) == Times(q, a - b) >= 0.0
  {}

  lemma PartSum(loss: real, span: real, q: real, p: real)
    ensures Times(q, loss) + Times(Times(q, span), p) == Times(q, loss + Times(span, p))
  {}

  /** The same when only the part q of the entries is known, and payoffs lie in [0, 1]. */
  lemma PartStep(s: Solver, lam: real, d: real, w: Leaves, e: real, q: real, share: real,
                 myKi: int, oppKi: int, turn: int, m: Mat, x': Vec, y: Vec)
    requires KiRange(myKi) && KiRange(oppKi) && turn <= TURN_LIMIT && 0.0 <= lam <= 1.0 && Accurate(s, d)
    requires w.loss <= w.win && 0.0 <= q && 0.0 <= share <= 1.0 && MixFor(x', myKi) && MixFor(y, oppKi)
    requires |Mix(s, LamLeaves(lam), myKi, oppKi, turn)| == |x'|
    requires Covers(x', Mix(s, LamLeaves(lam), myKi, oppKi, turn), share)
    requires Game(m, |x'|, |y|) && EntriesWithin(m, |x'|, |y|, 0.0, 1.0)
    requires var a := StageMatrix(myKi, oppKi, turn, LamLeaves(lam), Values(s, LamLeaves(lam)));
      forall i, j :: 0 <= i < |x'| && 0 <= j < |y| ==> m[i][j] >= Times(q, Discounted(w, 1.0, a[i][j] - e))
    ensures 0.0 <= Bilinear(x', m, y) <= 1.0
    ensures Times(share, Times(q, Discounted(w, 1.0, Value(s, LamLeaves(lam), myKi, oppKi, turn) - (e + d))))
         <= Bilinear(x', m, y)
  {
    hide Discounted, Value, StageMatrix, Accurate, Mix, DiscountedMat, Covers, Bilinear, PartOf, Times;
    var v, x := Value(s, LamLeaves(lam), myKi, oppKi, turn), Mix(s, LamLeaves(lam), myKi, oppKi, turn);
    var a := StageMatrix(myKi, oppKi, turn, LamLeaves(lam), Values(s, LamLeaves(lam)));
    var part := PartOf(w, q);
    var y' := StageSolved(s, lam, d, myKi, oppKi, turn);
    PartIs(w, q, v - d - e);
    DiscountedGuarantee(a, x, |y|, v - d, part, 1.0, e);
    var b := DiscountedMat(a, part, 1.0, e);
    forall i, j | 0 <= i < |x| && 0 <= j < |y| ensures m[i][j] >= b[i][j] {
      DiscountedEntry(a, |x|, |y|, part, 1.0, e, i, j);
      PartIs(w, q, a[i][j] - e);
    }
    StageBound(b, m, x, x', y, Discounted(part, 1.0, v - d - e), 0.0, 1.0, share);
    AverageInUnit(m, x', y);
    assert v - d - e == v - (e + d);
    ShareFromZero(share, Discounted(part, 1.0, v - d - e));
  }

  lemma ShareFromZero(c: real, v: real)
    ensures 0.0 + c * (v - 0.0) == Times(c, v)
  {}

  lemma AverageInUnit(m: Mat, x: Vec, y: Vec)
    requires Game(m, |x|, |y|) && Simplex(x) && Simplex(y) && EntriesWithin(m, |x|, |y|, 0.0, 1.0)
    ensures 0.0 <= Bilinear(x, m, y) <= 1.0
  {
    hide Dot;
    UtilityRange(m, |x|, |y|, x, y);
    SimplexAverage(x, MatVec(m, y), 0.0, 1.0);
  }

  /** Finishing wins the round at once. */
  lemma FinishWins(w: Leaves, myKi: int, oppKi: int, m: Mat, x: Vec, y: Vec)
    requires KiRange(myKi) && KiRange(oppKi) && MixFor(x, myKi) && MixFor(y, oppKi) && Game(m, |x|, |y|)
    requires Finishes(x, myKi, oppKi)
    requires forall i, j ::
      (0 <= i < |x| && 0 <= j < |y| && ImmediateOutcome(AffordableActions(myKi)[i], AffordableActions(oppKi)[j]) == 1
       ==> m[i][j] == w.win)
    ensures Bilinear(x, m, y) == w.win
  {
    var k: nat :| k < |AffordableActions(myKi)| && x == Pure(|AffordableActions(myKi)|, k)
               && BeatsAll(AffordableActions(myKi)[k], oppKi);
    DotPure(|x|, k, MatVec(m, y));
    assert m[k] == Const(|y|, w.win) by {
      forall j | 0 <= j < |y| ensures m[k][j] == w.win {
        assert AffordableActions(oppKi)[j] in AffordableActions(oppKi);
      }
    }
    DotComm(m[k], y);
    DotConst(y, w.win);
  }

  /** Finishing earns at least what every winning entry is worth. */
  lemma FinishAtLeast(g: real, myKi: int, oppKi: int, m: Mat, x: Vec, y: Vec)
    requires KiRange(myKi) && KiRange(oppKi) && MixFor(x, myKi) && MixFor(y, oppKi) && Game(m, |x|, |y|)
    requires Finishes(x, myKi, oppKi)
    requires forall i, j ::
      (0 <= i < |x| && 0 <= j < |y| && ImmediateOutcome(AffordableActions(myKi)[i], AffordableActions(oppKi)[j]) == 1
       ==> m[i][j] >= g)
    ensures Bilinear(x, m, y) >= g
  {
    hide ImmediateOutcome;
    var k: nat :| k < |AffordableActions(myKi)| && x == Pure(|AffordableActions(myKi)|, k)
               && BeatsAll(AffordableActions(myKi)[k], oppKi);
    DotPure(|x|, k, MatVec(m, y));
    forall j | 0 <= j < |y| ensures m[k][j] >= g {
      assert AffordableActions(oppKi)[j] in AffordableActions(oppKi);
    }
    DotComm(m[k], y);
    DotMono(y, Const(|y|, g), m[k]);
    DotConst(y, g);
  }

  /** What is claimed of the expected worth at one state: the share k of the stake. */
  ghost predicate Bounded(row: Policy, col: Policy, w: Leaves, s: Solver, lam: real, d: real, k: real,
                          myKi: int, oppKi: int, turn: int, h: History)
    requires Legal(row) && Legal(col) && KiRange(myKi) && KiRange(oppKi)
  {
    var e := Expected(row, col, w, myKi, oppKi, turn, h);
    && Discounted(w, k, Value(s, LamLeaves(lam), myKi, oppKi, turn) - Slack(d, turn)) <= e <= w.win
    && w.loss <= e
  }

  /** A smaller share is a weaker claim, since nothing is worth less than a loss. */
  lemma SmallerShare(w: Leaves, k: real, k': real, p: real, e: real)
    requires w.loss <= w.win && 0.0 <= k' <= k
    requires Discounted(w, k, p) <= e && w.loss <= e
    ensures Discounted(w, k', p) <= e
  {
    if p <= 0.0 {
      DiscountBelowLoss(w, k', p);
    } else {
      MulMono(p, Stake(w, k'), Stake(w, k)) by { MulMono(Span(w), k', k); }
    }
  }

  /** What is claimed of one entry of the matrix played. */
  ghost predicate EntryOk(row: Policy, col: Policy, w: Leaves, s: Solver, lam: real, d: real, k: real,
                          myKi: int, oppKi: int, turn: int, h: History, i: nat, j: nat)
    requires Legal(row) && Legal(col)
    requires i < |AffordableActions(myKi)| && j < |AffordableActions(oppKi)|
  {
      var me, opp := AffordableActions(myKi)[i], AffordableActions(oppKi)[j];
      var p := StageMatrix(myKi, oppKi, turn, LamLeaves(lam), Values(s, LamLeaves(lam)))[i][j];
      var q := PlayMatrix(row, col, w, myKi, oppKi, turn, h)[i][j];
      && Discounted(w, k, p - Slack(d, turn + 1)) <= q <= w.win && w.loss <= q
      && (ImmediateOutcome(me, opp) == 1 ==> q == w.win)
  }

  lemma PlayEntry(row: Policy, col: Policy, w: Leaves, s: Solver, lam: real, d: real, k: real,
                  myKi: int, oppKi: int, turn: int, h: History, i: nat, j: nat)
    requires Legal(row) && Legal(col) && KiRange(myKi) && KiRange(oppKi) && turn <= TURN_LIMIT
    requires Proper(w, lam) && d >= 0.0 && 0.0 <= k <= 1.0 && (turn >= TURN_LIMIT ==> k == 1.0)
    requires i < |AffordableActions(myKi)| && j < |AffordableActions(oppKi)|
    requires var me, opp := AffordableActions(myKi)[i], AffordableActions(oppKi)[j];
      turn < TURN_LIMIT && ImmediateOutcome(me, opp) == 0 ==>
        Bounded(row, col, w, s, lam, d, k, KiAfter(me, myKi), KiAfter(opp, oppKi), turn + 1, h + [(me, opp)])
    ensures EntryOk(row, col, w, s, lam, d, k, myKi, oppKi, turn, h, i, j)
  {
    hide Discounted, Value, Expected;
    var me, opp := AffordableActions(myKi)[i], AffordableActions(oppKi)[j];
    var h' := h + [(me, opp)];
    var g: ValueFn := (a, b, t) =>
      if turn < t <= TURN_LIMIT && KiRange(a) && KiRange(b) then Expected(row, col, w, a, b, t, h') else 0.0;
    SlackStep(d, turn);
    EntryBound(me, opp, myKi, oppKi, turn, w, lam, k, Slack(d, turn + 1), Values(s, LamLeaves(lam)), g);
    assert PlayMatrix(row, col, w, myKi, oppKi, turn, h)[i][j] == StagePayoff(me, opp, myKi, oppKi, turn, w, g);
  }

  ghost predicate EntriesOk(row: Policy, col: Policy, w: Leaves, s: Solver, lam: real, d: real, k: real,
                            myKi: int, oppKi: int, turn: int, h: History)
    requires Legal(row) && Legal(col)
  {
    forall i, j :: 0 <= i < |AffordableActions(myKi)| && 0 <= j < |AffordableActions(oppKi)| ==>
      EntryOk(row, col, w, s, lam, d, k, myKi, oppKi, turn, h, i, j)
  }

  /** From the entries of one stage to the expected worth before it, when the round is finished at once. */
  lemma FinishStep(row: Policy, col: Policy, w: Leaves, s: Solver, lam: real, d: real, k: real, kept: real,
                   myKi: int, oppKi: int, turn: int, h: History)
    requires Legal(row) && Legal(col) && KiRange(myKi) && KiRange(oppKi) && turn <= TURN_LIMIT
    requires Proper(w, lam) && Accurate(s, d) && 0.0 <= kept <= 1.0 && Finishes(row(h, myKi, oppKi, turn), myKi, oppKi)
    requires EntriesOk(row, col, w, s, lam, d, k, myKi, oppKi, turn, h)
    ensures Bounded(row, col, w, s, lam, d, kept, myKi, oppKi, turn, h)
  {
    hide Discounted, Value, StageMatrix, PlayMatrix, Accurate, Slack, Bilinear, AffordableActions;
    AccurateIsSound(s, d);
    var x, y, m := row(h, myKi, oppKi, turn), col(h, oppKi, myKi, turn), PlayMatrix(row, col, w, myKi, oppKi, turn, h);
    assert MixFor(x, myKi) && MixFor(y, oppKi);
    ActionAt(myKi, 0) by { AffordableCases(myKi); }
    ActionAt(oppKi, 0) by { AffordableCases(oppKi); }
    forall i, j | 0 <= i < |x| && 0 <= j < |y|
      ensures ImmediateOutcome(AffordableActions(myKi)[i], AffordableActions(oppKi)[j]) == 1 ==> m[i][j] == w.win
    {
      assert EntryOk(row, col, w, s, lam, d, k, myKi, oppKi, turn, h, i, j);
    }
    FinishWins(w, myKi, oppKi, m, x, y);
    SlackStep(d, turn);
    ValueRange(s, lam, myKi, oppKi, turn);
    DiscountBelowWin(w, kept, Value(s, LamLeaves(lam), myKi, oppKi, turn) - Slack(d, turn));
  }

  /** What the entries say about the matrix as a whole. */
  lemma PlayedEntries(row: Policy, col: Policy, w: Leaves, s: Solver, lam: real, d: real, k: real,
                      myKi: int, oppKi: int, turn: int, h: History)
    requires Legal(row) && Legal(col) && KiRange(myKi) && KiRange(oppKi)
    requires EntriesOk(row, col, w, s, lam, d, k, myKi, oppKi, turn, h)
    ensures var n, l := |AffordableActions(myKi)|, |AffordableActions(oppKi)|;
      var m := PlayMatrix(row, col, w, myKi, oppKi, turn, h);
      && Game(m, n, l) && EntriesWithin(m, n, l, w.loss, w.win)
      && forall i, j :: 0 <= i < n && 0 <= j < l ==>
           m[i][j] >= Discounted(w, k,
             StageMatrix(myKi, oppKi, turn, LamLeaves(lam), Values(s, LamLeaves(lam)))[i][j] - Slack(d, turn + 1))
  {
    hide Discounted, Value, StageMatrix, PlayMatrix, Slack, AffordableActions;
    ActionAt(myKi, 0) by { AffordableCases(myKi); }
    ActionAt(oppKi, 0) by { AffordableCases(oppKi); }
    var m := PlayMatrix(row, col, w, myKi, oppKi, turn, h);
    var a := StageMatrix(myKi, oppKi, turn, LamLeaves(lam), Values(s, LamLeaves(lam)));
    forall i, j | 0 <= i < |AffordableActions(myKi)| && 0 <= j < |AffordableActions(oppKi)|
      ensures w.loss <= m[i][j] <= w.win
      ensures m[i][j] >= Discounted(w, k, a[i][j] - Slack(d, turn + 1))
    {
      assert EntryOk(row, col, w, s, lam, d, k, myKi, oppKi, turn, h, i, j);
    }
  }

  lemma MixesAt(row: Policy, h: History, own: int, other: int, t: int)
    requires Legal(row) && KiRange(own)
    ensures MixFor(row(h, own, other, t), own)
  {}

  /** The same when a share of the solved mix is kept. */
  lemma ShareStep(row: Policy, col: Policy, w: Leaves, s: Solver, lam: real, d: real, share: real, k: real, kept: real,
                  myKi: int, oppKi: int, turn: int, h: History)
    requires Legal(row) && Legal(col) && KiRange(myKi) && KiRange(oppKi) && turn <= TURN_LIMIT
    requires Proper(w, lam) && Accurate(s, d) && 0.0 <= share <= 1.0 && 0.0 <= k && 0.0 <= kept <= Times(share, k)
    requires |Mix(s, LamLeaves(lam), myKi, oppKi, turn)| == |AffordableActions(myKi)|
    requires Covers(row(h, myKi, oppKi, turn), Mix(s, LamLeaves(lam), myKi, oppKi, turn), share)
    requires EntriesOk(row, col, w, s, lam, d, k, myKi, oppKi, turn, h)
    ensures Bounded(row, col, w, s, lam, d, kept, myKi, oppKi, turn, h)
  {
    hide Discounted, Value, StageMatrix, PlayMatrix, Accurate, Slack, Bilinear, AffordableActions, Mix, Covers,
      EntriesOk;
    var x, y, m := row(h, myKi, oppKi, turn), col(h, oppKi, myKi, turn), PlayMatrix(row, col, w, myKi, oppKi, turn, h);
    MixesAt(row, h, myKi, oppKi, turn);
    MixesAt(col, h, oppKi, myKi, turn);
    PlayedEntries(row, col, w, s, lam, d, k, myKi, oppKi, turn, h);
    AccurateIsSound(s, d);
    SlackStep(d, turn);
    StageStep(s, lam, d, w, k, Slack(d, turn + 1), share, Times(share, k), Slack(d, turn), w.win, myKi, oppKi, turn,
              m, x, y);
    WorthAtLeastLoss(w, m, x, y, w.win);
    hide Times;
    SmallerShare(w, Times(share, k), kept, Value(s, LamLeaves(lam), myKi, oppKi, turn) - Slack(d, turn),
                 Bilinear(x, m, y));
  }

  lemma WorthAtLeastLoss(w: Leaves, m: Mat, x: Vec, y: Vec, top: real)
    requires Game(m, |x|, |y|) && Simplex(x) && Simplex(y) && EntriesWithin(m, |x|, |y|, w.loss, top)
    ensures w.loss <= Bilinear(x, m, y)
  {
    hide Dot;
    var u := MatVec(m, y);
    forall i | 0 <= i < |x| ensures w.loss <= u[i] <= top {
      DotComm(m[i], y);
      SimplexAverage(y, m[i], w.loss, top);
    }
    SimplexAverage(x, u, w.loss, top);
  }

  /** The least entry of a matrix. */
  lemma LeastEntry(m: Mat, rows: nat, cols: nat) returns (least: real, i: nat, j: nat)
    requires Game(m, rows, cols)
    ensures i < rows && j < cols && least == m[i][j]
    ensures forall p, q :: 0 <= p < rows && 0 <= q < cols ==> least <= m[p][q]
  {
    i, j := 0, 0;
    for p := 0 to rows
      invariant i < rows && j < cols
      invariant forall p', q :: 0 <= p' < p && 0 <= q < cols ==> m[i][j] <= m[p'][q]
    {
      for q := 0 to cols
        invariant i < rows && j < cols
        invariant forall p', q' :: 0 <= p' < p && 0 <= q' < cols ==> m[i][j] <= m[p'][q']
        invariant forall q' :: 0 <= q' < q ==> m[i][j] <= m[p][q']
      {
        if m[p][q] < m[i][j] {
          i, j := p, q;
        }
      }
    }
    least := m[i][j];
  }

  /** The least of k over the states one turn ahead. */
  lemma LeastAhead(k: Share, h: History, a: int, b: int, t: int) returns (least: real, i: nat, j: nat)
    requires 0 <= a && 0 <= b
    ensures i < |AffordableActions(a)| && j < |AffordableActions(b)| && least == Ahead(k, h, a, b, t, i, j)
    ensures forall i', j' :: 0 <= i' < |AffordableActions(a)| && 0 <= j' < |AffordableActions(b)| ==>
      least <= Ahead(k, h, a, b, t, i', j')
  {
    hide Ahead, AffordableActions;
    var n, l := |AffordableActions(a)|, |AffordableActions(b)|;
    ActionAt(a, 0) by { AffordableCases(a); }
    ActionAt(b, 0) by { AffordableCases(b); }
    var m := seq(n, p requires 0 <= p < n => seq(l, q requires 0 <= q < l => Ahead(k, h, a, b, t, p, q)));
    least, i, j := LeastEntry(m, n, l);
    forall i', j' | 0 <= i' < n && 0 <= j' < l ensures least <= Ahead(k, h, a, b, t, i', j') {
      assert m[i'][j'] == Ahead(k, h, a, b, t, i', j');
    }
  }

  /** The factor all entries of a stage share: one at the last turn, else the least ahead. */
  lemma CommonShare(row: Policy, k: Share, c: Share, h: History, a: int, b: int, t: int) returns (common: real)
    requires Sustained(row, k, c) && KiRange(a) && KiRange(b) && 1 <= t <= TURN_LIMIT
    ensures 0.0 <= common <= 1.0 && (t == TURN_LIMIT ==> common == 1.0)
    ensures !Finishes(row(h, a, b, t), a, b) ==> k(h, a, b, t) <= Times(c(h, a, b, t), common)
    ensures t < TURN_LIMIT ==> forall i, j :: 0 <= i < |AffordableActions(a)| && 0 <= j < |AffordableActions(b)| ==>
      common <= Ahead(k, h, a, b, t, i, j)
  {
    hide AffordableActions, Finishes;
    assert SustainedAt(row, k, c, h, a, b, t);
    common := 1.0;
    if t < TURN_LIMIT {
      var i, j;
      common, i, j := LeastAhead(k, h, a, b, t);
      var me, opp := AffordableActions(a)[i], AffordableActions(b)[j];
      assert SustainedAt(row, k, c, h + [(me, opp)], KiAfter(me, a), KiAfter(opp, b), t + 1);
    }
  }

  /** Playing at least the share c of the solved mix in every situation, whatever the
      rest, keeps any share k of the round's stake that c sustains, less the solver's
      error, against every opponent. */
  lemma {:induction false} RoundBound(row: Policy, col: Policy, w: Leaves, s: Solver, lam: real, d: real, c: Share,
                                      k: Share,
                                      myKi: int, oppKi: int, turn: int, h: History)
    requires Legal(row) && Legal(col) && KiRange(myKi) && KiRange(oppKi) && 1 <= turn <= TURN_LIMIT
    requires Proper(w, lam) && Accurate(s, d) && Sound(s) && KeepsShare(row, s, lam, c) && Sustained(row, k, c)
    ensures Bounded(row, col, w, s, lam, d, k(h, myKi, oppKi, turn), myKi, oppKi, turn, h)
    decreases TURN_LIMIT - turn
  {
    hide Value, Accurate, Mix, Bounded, EntryOk, Sustained, AffordableActions, Finishes, Covers;
    AccurateIsSound(s, d);
    var rows, cols := AffordableActions(myKi), AffordableActions(oppKi);
    var common := CommonShare(row, k, c, h, myKi, oppKi, turn);
    forall i, j | 0 <= i < |rows| && 0 <= j < |cols|
      ensures EntryOk(row, col, w, s, lam, d, common, myKi, oppKi, turn, h, i, j)
    {
      if turn < TURN_LIMIT && ImmediateOutcome(rows[i], cols[j]) == 0 {
        var a, b := KiAfter(rows[i], myKi), KiAfter(cols[j], oppKi);
        var h' := h + [(rows[i], cols[j])];
        assert common <= Ahead(k, h, myKi, oppKi, turn, i, j) == k(h', a, b, turn + 1);
        RoundBound(row, col, w, s, lam, d, c, k, a, b, turn + 1, h');
        BoundedLess(row, col, w, s, lam, d, k(h', a, b, turn + 1), common, a, b, turn + 1, h');
      }
      PlayEntry(row, col, w, s, lam, d, common, myKi, oppKi, turn, h, i, j);
    }
    assert KeepsShareAt(row, s, lam, c, h, myKi, oppKi, turn);
    assert SustainedAt(row, k, c, h, myKi, oppKi, turn) by { SustainedHere(row, k, c, h, myKi, oppKi, turn); }
    MixLegal(s, LamLeaves(lam), myKi, oppKi, turn);
    if Finishes(row(h, myKi, oppKi, turn), myKi, oppKi) {
      FinishStep(row, col, w, s, lam, d, common, k(h, myKi, oppKi, turn), myKi, oppKi, turn, h);
    } else {
      ShareStep(row, col, w, s, lam, d, c(h, myKi, oppKi, turn), common, k(h, myKi, oppKi, turn), myKi, oppKi, turn, h);
    }
  }

  lemma SustainedHere(row: Policy, k: Share, c: Share, h: History, a: int, b: int, t: int)
    requires Sustained(row, k, c) && KiRange(a) && KiRange(b) && 1 <= t <= TURN_LIMIT
    ensures SustainedAt(row, k, c, h, a, b, t)
  {}

  lemma BoundedLess(row: Policy, col: Policy, w: Leaves, s: Solver, lam: real, d: real, k: real, k': real,
                    myKi: int, oppKi: int, turn: int, h: History)
    requires Legal(row) && Legal(col) && KiRange(myKi) && KiRange(oppKi) && w.loss <= w.win && 0.0 <= k' <= k
    requires Bounded(row, col, w, s, lam, d, k, myKi, oppKi, turn, h)
    ensures Bounded(row, col, w, s, lam, d, k', myKi, oppKi, turn, h)
  {
    hide Discounted, Value, Expected, Slack;
    SmallerShare(w, k, k', Value(s, LamLeaves(lam), myKi, oppKi, turn) - Slack(d, turn),
                 Expected(row, col, w, myKi, oppKi, turn, h));
  }

  // ----- shares that depend on the turn only -----

  function PerTurn(c: int -> real): Share {
    (h, a, b, t) => c(t)
  }

  /** The product of the shares kept at this turn and all later ones. */
  function Kept(c: int -> real, turn: int): real
    decreases TURN_LIMIT - turn
  {
    if turn > TURN_LIMIT then 1.0 else Times(c(turn), Kept(c, turn + 1))
  }

  function KeptPerTurn(c: int -> real): Share {
    (h, a, b, t) => Kept(c, t)
  }

  ghost predicate Shares(c: int -> real) {
    forall t :: 0.0 <= c(t) <= 1.0
  }

  lemma {:induction false} KeptRange(c: int -> real, turn: int)
    requires Shares(c)
    ensures 0.0 <= Kept(c, turn) <= 1.0
    ensures turn <= TURN_LIMIT ==> Kept(c, turn) <= c(turn)
    decreases TURN_LIMIT - turn
  {
    if turn <= TURN_LIMIT {
      hide Times;
      KeptRange(c, turn + 1);
      TimesUnit(c(turn), Kept(c, turn + 1));
    }
  }

  /** The product of the shares is sustained by them. */
  lemma KeptSustained(row: Policy, c: int -> real)
    requires Shares(c)
    ensures Sustained(row, KeptPerTurn(c), PerTurn(c))
  {
    hide Finishes, Times, AffordableActions;
    var k := KeptPerTurn(c);
    forall h: History, a, b, t | KiRange(a) && KiRange(b) && 1 <= t <= TURN_LIMIT
      ensures SustainedAt(row, k, PerTurn(c), h, a, b, t)
    {
      KeptRange(c, t);
      KeptRange(c, t + 1);
      forall i, j | 0 <= i < |AffordableActions(a)| && 0 <= j < |AffordableActions(b)|
        ensures k(h, a, b, t) <= Times(PerTurn(c)(h, a, b, t), Ahead(k, h, a, b, t, i, j))
      {
        TimesOne(c(t));
      }
    }
  }

  // ----- playing the table -----

  function ClampTurn(t: int): int {
    Clamp(t, 1, TURN_LIMIT)
  }

  function ClampKi(ki: int): int {
    Clamp(ki, 0, KI_CAP)
  }

  /** Playing the solved mix of the current state at every turn; lookups clamp
      their arguments into the table. */
  function TablePolicy(s: Solver, lam: real): Policy {
    (h, own, other, t) => Mix(s, LamLeaves(lam), ClampKi(own), ClampKi(other), ClampTurn(t))
  }

  /** Every lookup, in or out of range, is a mix over the actions affordable at the
      clamped ki; in range it is the solved mix of the state. */
  lemma TableAt(s: Solver, lam: real, h: History, own: int, other: int, t: int)
    requires Sound(s)
    ensures MixFor(TablePolicy(s, lam)(h, own, other, t), ClampKi(own))
    ensures KiRange(own) ==> ClampKi(own) == own
    ensures KiRange(own) && KiRange(other) && 1 <= t <= TURN_LIMIT ==>
      TablePolicy(s, lam)(h, own, other, t) == Mix(s, LamLeaves(lam), own, other, t)
  {
    hide Mix;
    assert TablePolicy(s, lam)(h, own, other, t)
        == Mix(s, LamLeaves(lam), ClampKi(own), ClampKi(other), ClampTurn(t));
    MixLegal(s, LamLeaves(lam), ClampKi(own), ClampKi(other), ClampTurn(t));
  }

  lemma TablePolicyLegal(s: Solver, lam: real)
    requires Sound(s)
    ensures Legal(TablePolicy(s, lam))
  {
    hide TablePolicy;
    forall h: History, own, other, t | KiRange(own) ensures MixFor(TablePolicy(s, lam)(h, own, other, t), own) {
      TableAt(s, lam, h, own, other, t);
    }
  }

  /** Nothing is given up. */
  const FULL: int -> real := _ => 1.0

  lemma {:induction false} KeptAll(turn: int)
    ensures Kept(FULL, turn) == 1.0
    decreases TURN_LIMIT - turn
  {
    if turn <= TURN_LIMIT {
      KeptAll(turn + 1);
    }
  }

  lemma AllShares()
    ensures Shares(FULL)
  {}

  lemma CoversSelf(x: Vec)
    ensures Covers(x, x, 1.0)
  {}

  /** Playing the table from any state, for leaves in any units, earns at least the
      solved value in those units less d per remaining turn, against every
      history-dependent mixed opponent; with the exact solver, at least the value. */
  lemma TableGuarantee(col: Policy, w: Leaves, s: Solver, lam: real, d: real, myKi: int, oppKi: int, turn: int,
                       h: History)
    requires Legal(col) && KiRange(myKi) && KiRange(oppKi) && 1 <= turn <= TURN_LIMIT
    requires Proper(w, lam) && Accurate(s, d)
    ensures Legal(TablePolicy(s, lam))
    ensures Expected(TablePolicy(s, lam), col, w, myKi, oppKi, turn, h)
         >= InUnits(w, Value(s, LamLeaves(lam), myKi, oppKi, turn) - (TURN_LIMIT + 1 - turn) as real * d)
  {
    hide Value, Mix, Expected, Accurate, Covers, Discounted, InUnits, Kept, KeepsShare, TablePolicy;
    AccurateIsSound(s, d);
    TablePolicyLegal(s, lam);
    var row := TablePolicy(s, lam);
    TableKeepsAll(s, lam);
    AllShares();
    KeptSustained(row, FULL);
    RoundBound(row, col, w, s, lam, d, PerTurn(FULL), KeptPerTurn(FULL), myKi, oppKi, turn, h);
    KeptAll(turn);
    WholeStake(w, Value(s, LamLeaves(lam), myKi, oppKi, turn) - Slack(d, turn));
  }

  lemma WholeStake(w: Leaves, p: real)
    ensures Discounted(w, 1.0, p) == InUnits(w, p)
  {
    hide Span;
  }

  lemma TableKeepsAll(s: Solver, lam: real)
    requires Sound(s)
    ensures Legal(TablePolicy(s, lam)) && KeepsShare(TablePolicy(s, lam), s, lam, PerTurn(FULL))
  {
    hide Mix, Covers, TablePolicy;
    TablePolicyLegal(s, lam);
    forall h: History, a, b, t | KiRange(a) && KiRange(b) && 1 <= t <= TURN_LIMIT
      ensures KeepsShareAt(TablePolicy(s, lam), s, lam, PerTurn(FULL), h, a, b, t)
    {
      var x := Mix(s, LamLeaves(lam), a, b, t);
      TableAt(s, lam, h, a, b, t);
      CoversSelf(x);
    }
  }

  lemma NormalizedUnits(lam: real, p: real)
    ensures InUnits(LamLeaves(lam), p) == p
  {
    assert Span(LamLeaves(lam)) == 1.0;
  }

  /** From the start of a round whose draw is worth one half, at least one half less
      twenty times the solver's error. */
  lemma FairRound(col: Policy, s: Solver, d: real)
    requires Legal(col) && Accurate(s, d)
    ensures Legal(TablePolicy(s, 0.5))
    ensures Expected(TablePolicy(s, 0.5), col, LamLeaves(0.5), 0, 0, 1, []) >= 0.5 - 20.0 * d
  {
    hide Value, Expected, Accurate, InUnits;
    AccurateIsSound(s, d);
    NormalizedUnits(0.5, 0.5);
    TableGuarantee(col, LamLeaves(0.5), s, 0.5, d, 0, 0, 1, []);
    RoundStartSymmetric(s, 0.5);
    NormalizedUnits(0.5, RoundStart(s, 0.5) - 20.0 * d);
  }
}
