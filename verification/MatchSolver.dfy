/** The best-of-three solved on top of the round values: from the last pre-round
    score back to the first. */
module MatchSolver {
  import opened Wrappers
  import opened GameRules

  /** A score before a round: my wins, the opponent's wins, rounds played. */
  datatype Score = Score(my: nat, opp: nat, played: nat)

  function Flip(k: Score): Score {
    Score(k.opp, k.my, k.played)
  }

  function AfterWin(k: Score): Score { Score(k.my + 1, k.opp, k.played + 1) }
  function AfterLoss(k: Score): Score { Score(k.my, k.opp + 1, k.played + 1) }
  function AfterDraw(k: Score): Score { Score(k.my, k.opp, k.played + 1) }

  function Terminal(k: Score): Option<real> {
    if k.my >= ROUNDS_TO_WIN then Some(1.0)
    else if k.opp >= ROUNDS_TO_WIN then Some(0.0)
    else if k.played >= 3 then Some(0.5)
    else None
  }

  /** A score at which a round is about to start. */
  predicate PreRound(k: Score) {
    k.my < ROUNDS_TO_WIN && k.opp < ROUNDS_TO_WIN && k.my + k.opp <= k.played <= 2
  }

  function Part(span: real, v: real): real {
    span * v
  }

  /** Where v, between 0 and 1, stands between the worth of losing and of winning. */
  function Between(win: real, loss: real, v: real): real {
    if win == loss then loss else loss + Part(win - loss, v)
  }

  /** The draw weight of a round with these three continuations; irrelevant, and
      pinned to one half, if the round cannot change anything. */
  function Weight(win: real, loss: real, draw: real): real {
    if win == loss then 0.5 else (draw - loss) / (win - loss)
  }

  /** Worth of the match to me at a score, given what a round with draw weight lam is worth. */
  function Worth(r: real -> real, k: Score): real
    decreases 3 - k.played
  {
    if Terminal(k).Some? then Terminal(k).value
    else Between(Worth(r, AfterWin(k)), Worth(r, AfterLoss(k)), r(DrawWeight(r, k)))
  }

  /** The draw weight the next round is played with. */
  function DrawWeight(r: real -> real, k: Score): real
    requires Terminal(k) == None
    decreases 3 - k.played, 0
  {
    Weight(Worth(r, AfterWin(k)), Worth(r, AfterLoss(k)), Worth(r, AfterDraw(k)))
  }

  /** What the solver may be told about rounds: values in [0, 1], and opposite
      values for opposite draw weights. */
  ghost predicate RoundOracle(r: real -> real) {
    forall x :: 0.0 <= x <= 1.0 ==> 0.0 <= r(x) <= 1.0 && r(x) + r(1.0 - x) == 1.0
  }

  /** The next round matters in the right direction, and not at all only if a draw
      is worth the same too; its draw weight is a weight. */
  ghost predicate RoundStakesOk(r: real -> real, k: Score)
    requires Terminal(k) == None
  {
    var win, loss, draw := Worth(r, AfterWin(k)), Worth(r, AfterLoss(k)), Worth(r, AfterDraw(k));
    && 0.0 <= loss <= draw <= win <= 1.0
    && 0.0 <= DrawWeight(r, k) <= 1.0
    && draw == Between(win, loss, DrawWeight(r, k))
  }

  lemma WeightRealizesDraw(win: real, loss: real, draw: real)
    requires loss <= draw <= win
    ensures 0.0 <= Weight(win, loss, draw) <= 1.0
    ensures draw == Between(win, loss, Weight(win, loss, draw))
  {
    if win != loss {
      Ratio(draw - loss, win - loss);
    }
  }

  lemma Ratio(p: real, q: real)
    requires 0.0 <= p <= q && q > 0.0
    ensures 0.0 <= p / q <= 1.0 && q * (p / q) == p
  {}

  lemma BetweenRange(win: real, loss: real, v: real)
    requires loss <= win && 0.0 <= v <= 1.0
    ensures loss <= Between(win, loss, v) <= win
  {
    hide Part;
    PartRange(win - loss, v);
  }

  lemma PartRange(span: real, v: real)
    requires span >= 0.0 && 0.0 <= v <= 1.0
    ensures 0.0 <= Part(span, v) <= span
  {}

  lemma StakesFromOrder(r: real -> real, k: Score)
    requires RoundOracle(r) && Terminal(k) == None
    requires 0.0 <= Worth(r, AfterLoss(k)) <= Worth(r, AfterDraw(k)) <= Worth(r, AfterWin(k)) <= 1.0
    ensures RoundStakesOk(r, k)
    ensures 0.0 <= Worth(r, AfterLoss(k)) <= Worth(r, k) <= Worth(r, AfterWin(k))
  {
    hide Between, Weight;
    var win, loss, draw := Worth(r, AfterWin(k)), Worth(r, AfterLoss(k)), Worth(r, AfterDraw(k));
    WeightRealizesDraw(win, loss, draw);
    BetweenRange(win, loss, r(DrawWeight(r, k)));
  }

  lemma SimpleStakes(v: real)
    ensures Between(0.5, 0.5, v) == 0.5 && Between(1.0, 0.5, v) == 0.5 + 0.5 * v
    ensures Between(0.5, 0.0, v) == 0.5 * v && Between(1.0, 0.0, v) == v
    ensures Weight(1.0, 0.5, 0.5) == 0.0 && Weight(0.5, 0.0, 0.5) == 1.0 && Weight(1.0, 0.0, 0.5) == 0.5
  {}

  /** Before the third round. */
  lemma ThirdRound(r: real -> real)
    requires RoundOracle(r)
    ensures Worth(r, Score(0, 0, 2)) == 0.5 && RoundStakesOk(r, Score(0, 0, 2))
    ensures Worth(r, Score(1, 0, 2)) == 0.5 + 0.5 * r(0.0) && RoundStakesOk(r, Score(1, 0, 2))
    ensures Worth(r, Score(0, 1, 2)) == 0.5 * r(1.0) && RoundStakesOk(r, Score(0, 1, 2))
    ensures Worth(r, Score(1, 1, 2)) == 0.5 && RoundStakesOk(r, Score(1, 1, 2))
    ensures Worth(r, Score(1, 0, 2)) + Worth(r, Score(0, 1, 2)) == 1.0
  {
    hide Between, Weight, Worth, DrawWeight;
    ThirdRoundTerminals(r);
    StakesFromOrder(r, Score(0, 0, 2));
    StakesFromOrder(r, Score(1, 0, 2));
    StakesFromOrder(r, Score(0, 1, 2));
    StakesFromOrder(r, Score(1, 1, 2));
    WorthUnfolds(r, Score(0, 0, 2));
    WorthUnfolds(r, Score(1, 0, 2));
    WorthUnfolds(r, Score(0, 1, 2));
    WorthUnfolds(r, Score(1, 1, 2));
    SimpleStakes(r(DrawWeight(r, Score(0, 0, 2))));
    SimpleStakes(r(0.0));
    SimpleStakes(r(1.0));
    SimpleStakes(r(0.5));
    assert r(0.5) + r(1.0 - 0.5) == 1.0;
    assert r(0.0) + r(1.0 - 0.0) == 1.0;
  }

  lemma WorthUnfolds(r: real -> real, k: Score)
    requires Terminal(k) == None
    ensures Worth(r, k) == Between(Worth(r, AfterWin(k)), Worth(r, AfterLoss(k)), r(DrawWeight(r, k)))
    ensures DrawWeight(r, k) == Weight(Worth(r, AfterWin(k)), Worth(r, AfterLoss(k)), Worth(r, AfterDraw(k)))
  {}

  lemma ThirdRoundTerminals(r: real -> real)
    ensures Worth(r, Score(0, 0, 3)) == Worth(r, Score(1, 0, 3)) == Worth(r, Score(0, 1, 3)) == 0.5
    ensures Worth(r, Score(1, 1, 3)) == 0.5
    ensures Worth(r, Score(2, 0, 3)) == Worth(r, Score(2, 1, 3)) == 1.0
    ensures Worth(r, Score(0, 2, 3)) == Worth(r, Score(1, 2, 3)) == 0.0
  {}

  /** Before the second round. */
  lemma SecondRound(r: real -> real)
    requires RoundOracle(r)
    ensures Worth(r, Score(0, 0, 1)) == 0.5 && RoundStakesOk(r, Score(0, 0, 1))
    ensures RoundStakesOk(r, Score(1, 0, 1)) && RoundStakesOk(r, Score(0, 1, 1))
    ensures 0.5 <= Worth(r, Score(1, 0, 1)) <= 1.0
    ensures Worth(r, Score(1, 0, 1)) + Worth(r, Score(0, 1, 1)) == 1.0
  {
    hide Worth, DrawWeight;
    ThirdRound(r);
    TerminalWorth(r, Score(2, 0, 2));
    TerminalWorth(r, Score(0, 2, 2));
    assert 0.0 <= r(0.0) <= 1.0 && 0.0 <= r(1.0) <= 1.0;
    StakesFromOrder(r, Score(0, 0, 1));
    StakesFromOrder(r, Score(1, 0, 1));
    StakesFromOrder(r, Score(0, 1, 1));
    Level(r);
    Opposite(r, Score(1, 0, 1));
  }

  lemma TerminalOrNot(r: real -> real, k: Score)
    ensures match Terminal(k)
            case Some(v) => Worth(r, k) == v
            case None =>
              && Worth(r, k) == Between(Worth(r, AfterWin(k)), Worth(r, AfterLoss(k)), r(DrawWeight(r, k)))
              && DrawWeight(r, k) == Weight(Worth(r, AfterWin(k)), Worth(r, AfterLoss(k)), Worth(r, AfterDraw(k)))
  {}

  lemma TerminalWorth(r: real -> real, k: Score)
    requires Terminal(k).Some?
    ensures Worth(r, k) == Terminal(k).value
  {}

  /** If the three continuations at a score and at the flipped score are opposite,
      so are the worth and the draw weight. */
  lemma Opposite(r: real -> real, k: Score)
    requires RoundOracle(r) && Terminal(k) == None && Terminal(Flip(k)) == None
    requires RoundStakesOk(r, k)
    requires Worth(r, AfterWin(k)) + Worth(r, AfterLoss(Flip(k))) == 1.0
    requires Worth(r, AfterLoss(k)) + Worth(r, AfterWin(Flip(k))) == 1.0
    requires Worth(r, AfterDraw(k)) + Worth(r, AfterDraw(Flip(k))) == 1.0
    ensures Worth(r, k) + Worth(r, Flip(k)) == 1.0
    ensures DrawWeight(r, k) + DrawWeight(r, Flip(k)) == 1.0
  {
    hide Between, Weight, Worth, DrawWeight;
    var win, loss, draw := Worth(r, AfterWin(k)), Worth(r, AfterLoss(k)), Worth(r, AfterDraw(k));
    WorthUnfolds(r, k);
    WorthUnfolds(r, Flip(k));
    var lam := DrawWeight(r, k);
    OppositeWeight(win, loss, draw);
    assert r(lam) + r(1.0 - lam) == 1.0;
    OppositeBetween(win, loss, r(lam));
  }

  lemma OppositeWeight(win: real, loss: real, draw: real)
    ensures Weight(1.0 - loss, 1.0 - win, 1.0 - draw) == 1.0 - Weight(win, loss, draw)
  {
    if win != loss {
      var span := win - loss;
      assert (1.0 - loss) - (1.0 - win) == span && (1.0 - draw) - (1.0 - win) == span - (draw - loss);
      RatioRest(draw - loss, span);
    }
  }

  lemma RatioRest(p: real, q: real)
    requires q != 0.0
    ensures (q - p) / q == 1.0 - p / q
  {
    RatioSum(p, q - p, q);
  }

  lemma RatioSum(p: real, p': real, q: real)
    requires p + p' == q && q != 0.0
    ensures p / q + p' / q == 1.0
  {}

  lemma OppositeBetween(win: real, loss: real, v: real)
    ensures Between(1.0 - loss, 1.0 - win, 1.0 - v) == 1.0 - Between(win, loss, v)
  {
    var span := win - loss;
    assert (1.0 - loss) - (1.0 - win) == span;
    assert span * (1.0 - v) == span - span * v;
  }

  /** At a level score whose draw continuation is level too, the match is level. */
  lemma Level(r: real -> real)
    requires RoundOracle(r)
    requires RoundStakesOk(r, Score(0, 0, 1))
    requires Worth(r, Score(1, 0, 2)) + Worth(r, Score(0, 1, 2)) == 1.0 && Worth(r, Score(0, 0, 2)) == 0.5
    ensures Worth(r, Score(0, 0, 1)) == 0.5
  {
    Opposite(r, Score(0, 0, 1));
  }

  lemma FirstRound(r: real -> real)
    requires RoundOracle(r)
    ensures Worth(r, Score(0, 0, 0)) == 0.5 && RoundStakesOk(r, Score(0, 0, 0))
  {
    hide Worth, DrawWeight;
    SecondRound(r);
    StakesFromOrder(r, Score(0, 0, 0));
    Opposite(r, Score(0, 0, 0));
  }

  lemma PreRoundCases(k: Score)
    requires PreRound(k)
    ensures k in {Score(0, 0, 0), Score(0, 0, 1), Score(1, 0, 1), Score(0, 1, 1),
                  Score(0, 0, 2), Score(1, 0, 2), Score(0, 1, 2), Score(1, 1, 2)}
  {
    assert k == Score(k.my, k.opp, k.played);
  }

  /** For every such oracle, at every one of the eight pre-round scores: the draw
      weight is in [0, 1] and realizes the worth of a draw, the worths of a score
      and of the flipped score add up to one, and the opening score is worth one half. */
  lemma MatchWellFormed(r: real -> real, k: Score)
    requires RoundOracle(r) && PreRound(k)
    ensures RoundStakesOk(r, k)
    ensures 0.0 <= Worth(r, k) <= 1.0
    ensures Worth(r, k) + Worth(r, Flip(k)) == 1.0
    ensures Worth(r, Score(0, 0, 0)) == 0.5
  {
    hide Worth, DrawWeight;
    ThirdRound(r);
    SecondRound(r);
    FirstRound(r);
    PreRoundCases(k);
    assert 0.0 <= r(0.0) <= 1.0 && 0.0 <= r(1.0) <= 1.0;
  }

  /** Before the third round a draw is worth nothing to the leader: drawn or lost, it
      ends the match level. To the player behind it is worth as much as a win. */
  lemma DecidingWeights(r: real -> real)
    requires RoundOracle(r)
    ensures DrawWeight(r, Score(1, 0, 2)) == 0.0 && DrawWeight(r, Score(0, 1, 2)) == 1.0
  {
    hide Between, Weight, Worth, DrawWeight;
    ThirdRoundTerminals(r);
    SimpleStakes(r(0.0));
    WorthUnfolds(r, Score(1, 0, 2));
    WorthUnfolds(r, Score(0, 1, 2));
  }

  /** The draw weight of every score: at least one half exactly for the player who is
      not leading, as soon as a round whose draw is lost is worth less than one half. */
  lemma WeightByStanding(r: real -> real, k: Score)
    requires RoundOracle(r) && r(0.0) < 0.5 && PreRound(k)
    ensures DrawWeight(r, k) >= 0.5 <==> k.my <= k.opp
  {
    hide Between, Weight, Worth, DrawWeight;
    DecidingWeights(r);
    LevelWeight(r, Score(0, 0, 0));
    LevelWeight(r, Score(0, 0, 1));
    LevelWeight(r, Score(0, 0, 2));
    LevelWeight(r, Score(1, 1, 2));
    SecondWeights(r);
    PreRoundCases(k);
  }

  lemma LevelWeight(r: real -> real, k: Score)
    requires RoundOracle(r) && PreRound(k) && k.my == k.opp
    ensures DrawWeight(r, k) == 0.5
  {
    hide Between, Weight, Worth, DrawWeight;
    ThirdRound(r);
    SecondRound(r);
    ThirdRoundTerminals(r);
    FirstRound(r);
    PreRoundCases(k);
    WorthUnfolds(r, k);
    TerminalWorth(r, Score(2, 1, 3));
    TerminalWorth(r, Score(1, 2, 3));
    LevelStakes(Worth(r, AfterWin(k)), Worth(r, AfterLoss(k)));
  }

  lemma LevelStakes(win: real, loss: real)
    ensures win + loss == 1.0 ==> Weight(win, loss, 0.5) == 0.5
    ensures Weight(0.5, 0.5, 0.5) == 0.5
  {
    if win + loss == 1.0 && win != loss {
      Halved(0.5 - loss);
      assert win - loss == 2.0 * (0.5 - loss);
    }
  }

  lemma Halved(p: real)
    requires p != 0.0
    ensures p / (2.0 * p) == 0.5
  {}

  lemma SecondWeights(r: real -> real)
    requires RoundOracle(r)
    ensures DrawWeight(r, Score(1, 0, 1)) == r(0.0) && DrawWeight(r, Score(0, 1, 1)) == r(1.0) == 1.0 - r(0.0)
  {
    hide Between, Weight, Worth, DrawWeight;
    ThirdRound(r);
    TerminalWorth(r, Score(2, 0, 2));
    TerminalWorth(r, Score(0, 2, 2));
    WorthUnfolds(r, Score(1, 0, 1));
    WorthUnfolds(r, Score(0, 1, 1));
    assert r(0.0) + r(1.0 - 0.0) == 1.0;
    HalfStakes(r(0.0));
    HalfStakes(r(1.0));
  }

  lemma HalfStakes(v: real)
    ensures Weight(1.0, 0.5, 0.5 + 0.5 * v) == v && Weight(0.5, 0.0, 0.5 * v) == v
  {}

  // ----- the memoized induction -----

  /** Enumerates the pre-round scores. */
  method ReachableScores() returns (scores: seq<Score>)
    ensures forall k :: k in scores <==> PreRound(k)
    ensures forall i, j :: 0 <= i < j < |scores| ==> scores[i] != scores[j]
  {
    scores := [];
    for played := 0 to 3
      invariant forall k :: k in scores <==> PreRound(k) && k.played < played
      invariant forall i, j :: 0 <= i < j < |scores| ==> scores[i] != scores[j]
    {
      for my := 0 to played + 1
        invariant forall k :: k in scores <==> PreRound(k) && (k.played < played || (k.played == played && k.my < my))
        invariant forall i, j :: 0 <= i < j < |scores| ==> scores[i] != scores[j]
      {
        for opp := 0 to played + 1 - my
          invariant forall k :: k in scores <==>
            (PreRound(k) && (k.played < played || (k.played == played && (k.my < my || (k.my == my && k.opp < opp)))))
          invariant forall i, j :: 0 <= i < j < |scores| ==> scores[i] != scores[j]
        {
          if my >= ROUNDS_TO_WIN || opp >= ROUNDS_TO_WIN {
            continue;
          }
          scores := scores + [Score(my, opp, played)];
        }
      }
    }
  }

  /** The induction with its two result dictionaries and its memo. */
  class MatchInduction {
    const roundValue: real -> real
    var lambdas: map<Score, real>
    var values: map<Score, real>
    var memo: map<Score, real>

    ghost predicate Valid()
      reads this
    {
      && values == memo && lambdas.Keys == memo.Keys
      && forall k :: k in memo ==>
           PreRound(k) && memo[k] == Worth(roundValue, k) && lambdas[k] == DrawWeight(roundValue, k)
    }

    constructor (r: real -> real)
      ensures Valid() && roundValue == r && memo == map[]
    {
      roundValue := r;
      lambdas, values, memo := map[], map[], map[];
    }

    /** The draw weight and the worth of one round with these continuations. */
    method PlayRound(win: real, loss: real, draw: real) returns (lam: real, worth: real)
      ensures lam == Weight(win, loss, draw) && worth == Between(win, loss, roundValue(lam))
    {
      if win == loss {
        lam := 0.5;
        worth := loss;
      } else {
        lam := (draw - loss) / (win - loss);
        worth := loss + (win - loss) * roundValue(lam);
      }
    }

    method Evaluate(k: Score) returns (worth: real)
      requires Valid() && (PreRound(k) || Terminal(k).Some?)
      modifies this
      ensures Valid() && worth == Worth(roundValue, k)
      ensures old(memo.Keys) <= memo.Keys && (PreRound(k) ==> k in memo)
      decreases 3 - k.played
    {
      hide Worth, DrawWeight, Between, Weight;
      TerminalOrNot(roundValue, k);
      if Terminal(k).Some? {
        return Terminal(k).value;
      }
      if k in memo {
        return memo[k];
      }
      var win := Evaluate(AfterWin(k));
      var loss := Evaluate(AfterLoss(k));
      var draw := Evaluate(AfterDraw(k));
      var lam;
      lam, worth := PlayRound(win, loss, draw);
      lambdas := lambdas[k := lam];
      values := values[k := worth];
      memo := memo[k := worth];
    }

    /** Fills both dictionaries for exactly the eight pre-round scores. */
    method Run()
      requires Valid()
      modifies this
      ensures Valid()
      ensures forall k :: k in values <==> PreRound(k)
      ensures lambdas.Keys == values.Keys
      ensures forall k :: PreRound(k) ==> values[k] == Worth(roundValue, k) && lambdas[k] == DrawWeight(roundValue, k)
    {
      hide Worth, DrawWeight;
      var scores := ReachableScores();
      for i := 0 to |scores|
        invariant Valid()
        invariant forall j :: 0 <= j < i ==> scores[j] in memo
      {
        var _ := Evaluate(scores[i]);
      }
    }
  }
}
