/** Table play with a reply blended in: when the documented cost bound holds. */
module Blending {
  import opened GameRules
  import opened Vectors
  import opened MatrixGame
  import opened ZeroSum
  import opened StageGame
  import opened RoundSolver
  import opened RoundGuarantee
  import opened Exploit

  /** The claimed worst-case cost of blending with weight eps. */
  function ExploitabilityBound(eps: real): real {
    eps
  }

  /** A weight of the blend for every situation. */
  type Weighting = (History, int, int, int) -> real

  ghost predicate UnitWeights(eps: Weighting) {
    forall h, own, other, t :: UnitWeight(eps, h, own, other, t)
  }

  ghost predicate UnitWeight(eps: Weighting, h: History, own: int, other: int, t: int) {
    0.0 <= eps(h, own, other, t) <= 1.0
  }

  /** The table with a reply blended in, with the weight of each situation. */
  ghost function Blended(s: Solver, lam: real, br: Policy, e: Weighting): Policy
    requires Sound(s) && Legal(br)
  {
    (h, own, other, t) =>
      if KiRange(own) then
        TableAt(s, lam, h, own, other, t);
        Blend(TablePolicy(s, lam)(h, own, other, t), br(h, own, other, t), e(h, own, other, t))
      else []
  }

  /** Weight e(t) at turn t. */
  ghost function BlendEach(s: Solver, lam: real, br: Policy, e: int -> real): Policy
    requires Sound(s) && Legal(br)
  {
    Blended(s, lam, br, PerTurn(e))
  }

  /** The share of the solved mix that blending leaves. */
  function LeftOf(e: Weighting): Share {
    (h, a, b, t) => 1.0 - e(h, a, b, t)
  }

  function Rest(e: int -> real): int -> real {
    t => 1.0 - e(t)
  }

  lemma BlendedKeepsHere(s: Solver, lam: real, br: Policy, e: Weighting, h: History, a: int, b: int, t: int)
    requires Sound(s) && Legal(br) && UnitWeights(e) && KiRange(a)
    ensures MixFor(Blended(s, lam, br, e)(h, a, b, t), a)
    ensures KiRange(b) && 1 <= t <= TURN_LIMIT ==>
      && |Mix(s, LamLeaves(lam), a, b, t)| == |AffordableActions(a)|
      && Covers(Blended(s, lam, br, e)(h, a, b, t), Mix(s, LamLeaves(lam), a, b, t), 1.0 - e(h, a, b, t))
  {
    hide Mix, Covers, TablePolicy, Blend;
    TableAt(s, lam, h, a, b, t);
    assert MixFor(br(h, a, b, t), a);
    assert UnitWeight(e, h, a, b, t);
    BlendIsMix(TablePolicy(s, lam)(h, a, b, t), br(h, a, b, t), e(h, a, b, t));
    if KiRange(b) && 1 <= t <= TURN_LIMIT {
      BlendCovers(Mix(s, LamLeaves(lam), a, b, t), br(h, a, b, t), e(h, a, b, t));
    }
  }

  /** Blending keeps the share 1 - e of the solved mix. */
  lemma BlendedKeeps(s: Solver, lam: real, br: Policy, e: Weighting)
    requires Sound(s) && Legal(br) && UnitWeights(e)
    ensures Legal(Blended(s, lam, br, e))
    ensures KeepsShare(Blended(s, lam, br, e), s, lam, LeftOf(e))
  {
    hide Mix, Covers, Blended, Finishes, AffordableActions;
    var row := Blended(s, lam, br, e);
    forall h: History, own, other, t | KiRange(own) ensures MixFor(row(h, own, other, t), own) {
      BlendedKeepsHere(s, lam, br, e, h, own, other, t);
    }
    forall h: History, a, b, t | KiRange(a) && KiRange(b) && 1 <= t <= TURN_LIMIT
      ensures KeepsShareAt(row, s, lam, LeftOf(e), h, a, b, t)
    {
      BlendedKeepsHere(s, lam, br, e, h, a, b, t);
      assert UnitWeight(e, h, a, b, t);
    }
  }

  lemma BlendEachKeeps(s: Solver, lam: real, br: Policy, e: int -> real)
    requires Sound(s) && Legal(br) && Shares(e)
    ensures Legal(BlendEach(s, lam, br, e))
    ensures KeepsShare(BlendEach(s, lam, br, e), s, lam, PerTurn(Rest(e)))
  {
    hide Mix, Covers, Blended, Finishes, AffordableActions;
    forall h: History, own, other, t ensures UnitWeight(PerTurn(e), h, own, other, t) {}
    BlendedKeeps(s, lam, br, PerTurn(e));
    var row := BlendEach(s, lam, br, e);
    forall h: History, a, b, t | KiRange(a) && KiRange(b) && 1 <= t <= TURN_LIMIT
      ensures KeepsShareAt(row, s, lam, PerTurn(Rest(e)), h, a, b, t)
    {
      assert KeepsShareAt(row, s, lam, LeftOf(PerTurn(e)), h, a, b, t);
    }
  }

  /** Keeping the share k of the stake costs at most eps if the share given up of the
      solved value is at most eps. */
  lemma CostOfShare(w: Leaves, k: real, v: real, slack: real, eps: real)
    requires w.loss <= w.win && 0.0 <= k <= 1.0 && slack >= 0.0 && Times(v, 1.0 - k) <= eps
    ensures Discounted(w, k, v - slack) >= InUnits(w, v - slack - eps)
  {
    var u, p := Span(w), v - slack;
    assert u >= 0.0;
    hide Span;
    MulNonNeg(1.0 - k, slack);
    assert k * p == p - v * (1.0 - k) + (1.0 - k) * slack;
    MulMono(u, p - eps, k * p);
    assert k * u * p == u * (k * p);
  }

  /** When the documented bound holds. A way of playing that keeps the share c of the
      solved mix in every situation costs at most eps of the round's value, against every
      opponent, as soon as the solved value times the share given up is at most eps, for
      some share kept that c sustains. */
  lemma CheapEnough(row: Policy, s: Solver, lam: real, d: real, c: Share, k: Share, eps: real, col: Policy,
                    w: Leaves, myKi: int, oppKi: int, turn: int, h: History)
    requires Sound(s) && Accurate(s, d) && Proper(w, lam) && Legal(row) && Legal(col)
    requires KeepsShare(row, s, lam, c) && Sustained(row, k, c)
    requires KiRange(myKi) && KiRange(oppKi) && 1 <= turn <= TURN_LIMIT
    requires Times(Value(s, LamLeaves(lam), myKi, oppKi, turn), 1.0 - k(h, myKi, oppKi, turn)) <= eps
    ensures Expected(row, col, w, myKi, oppKi, turn, h)
         >= InUnits(w, Value(s, LamLeaves(lam), myKi, oppKi, turn) - (TURN_LIMIT + 1 - turn) as real * d
                       - ExploitabilityBound(eps))
  {
    hide Value, Expected, Accurate, KeepsShare, Discounted, InUnits, Times, Finishes, AffordableActions;
    AccurateIsSound(s, d);
    SustainedHere(row, k, c, h, myKi, oppKi, turn);
    RoundBound(row, col, w, s, lam, d, c, k, myKi, oppKi, turn, h);
    SlackStep(d, turn);
    CostOfShare(w, k(h, myKi, oppKi, turn), Value(s, LamLeaves(lam), myKi, oppKi, turn), Slack(d, turn), eps);
  }

  /** In particular for shares that depend on the turn only: a condition to be read off
      the table before playing. */
  lemma BoundWhenCheap(row: Policy, s: Solver, lam: real, d: real, c: int -> real, eps: real, col: Policy,
                       w: Leaves, myKi: int, oppKi: int, turn: int, h: History)
    requires Sound(s) && Accurate(s, d) && Proper(w, lam) && Legal(row) && Legal(col)
    requires Shares(c) && KeepsShare(row, s, lam, PerTurn(c))
    requires KiRange(myKi) && KiRange(oppKi) && 1 <= turn <= TURN_LIMIT
    requires Times(Value(s, LamLeaves(lam), myKi, oppKi, turn), 1.0 - Kept(c, turn)) <= eps
    ensures Expected(row, col, w, myKi, oppKi, turn, h)
         >= InUnits(w, Value(s, LamLeaves(lam), myKi, oppKi, turn) - (TURN_LIMIT + 1 - turn) as real * d
                       - ExploitabilityBound(eps))
  {
    hide Value, Expected, Accurate, KeepsShare, InUnits, Kept, Times, Sustained;
    KeptSustained(row, c);
    CheapEnough(row, s, lam, d, PerTurn(c), KeptPerTurn(c), eps, col, w, myKi, oppKi, turn, h);
  }

  // ----- one blended turn -----

  /** Weight eps at one turn and none at the others. */
  function Once(eps: real, at: int): int -> real {
    t => if t == at then eps else 0.0
  }

  lemma {:induction false} OnceKept(eps: real, at: int, turn: int)
    requires at <= TURN_LIMIT
    ensures Kept(Rest(Once(eps, at)), turn) == if turn <= at then 1.0 - eps else 1.0
    decreases TURN_LIMIT - turn
  {
    if turn <= TURN_LIMIT { OnceKept(eps, at, turn + 1); }
  }

  lemma OnceShares(eps: real, at: int)
    requires 0.0 <= eps <= 1.0
    ensures Shares(Once(eps, at)) && Shares(Rest(Once(eps, at)))
  {}

  /** One blended turn is always cheap enough: blending an arbitrary reply with weight
      eps into one turn of table play costs at most eps, against every opponent. */
  lemma OneBlendedTurn(s: Solver, lam: real, d: real, br: Policy, eps: real, col: Policy,
                       w: Leaves, myKi: int, oppKi: int, at: int, turn: int, h: History)
    requires Sound(s) && Accurate(s, d) && Proper(w, lam) && Legal(br) && Legal(col) && 0.0 <= eps <= 1.0
    requires KiRange(myKi) && KiRange(oppKi) && 1 <= turn <= at <= TURN_LIMIT
    ensures Legal(BlendEach(s, lam, br, Once(eps, at)))
    ensures Expected(BlendEach(s, lam, br, Once(eps, at)), col, w, myKi, oppKi, turn, h)
         >= InUnits(w, Value(s, LamLeaves(lam), myKi, oppKi, turn) - (TURN_LIMIT + 1 - turn) as real * d
                       - ExploitabilityBound(eps))
  {
    hide Value, Expected, Accurate, BlendEach, KeepsShare, InUnits, Kept, Times;
    OnceShares(eps, at);
    BlendEachKeeps(s, lam, br, Once(eps, at));
    OnceKept(eps, at, turn);
    ValueRange(s, lam, myKi, oppKi, turn);
    AtMostWeight(Value(s, LamLeaves(lam), myKi, oppKi, turn), eps);
    assert 1.0 - (1.0 - eps) == eps;
    BoundWhenCheap(BlendEach(s, lam, br, Once(eps, at)), s, lam, d, Rest(Once(eps, at)), eps, col, w, myKi, oppKi,
                   turn, h);
  }

  lemma AtMostWeight(v: real, eps: real)
    requires v <= 1.0 && eps >= 0.0
    ensures Times(v, eps) <= eps
  {
    MulMono(eps, v, 1.0);
  }
}
