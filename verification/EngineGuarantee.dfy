/** The solver's game is the engine's game, and what the solved tables, or a share of
    them, are worth when a whole match is played on the engine against any opponent. */
module EngineGuarantee {
  import opened Wrappers
  import opened GameRules
  import opened MatchEngine
  import opened EngineInvariants
  import opened Vectors
  import opened MatrixGame
  import opened ZeroSum
  import opened StageGame
  import opened RoundSolver
  import opened RoundGuarantee
  import opened MatchSolver
  import opened Strategies

  // ----- one turn -----

  /** The score as the second player sees it. */
  function ScoreOf(gs: GameState): Score
    requires gs.wonP1 >= 0 && gs.wonP2 >= 0
  {
    Score(gs.wonP2, gs.wonP1, |gs.results|)
  }

  /** Which leaf a finished round is, for the second player. */
  function LeafOf(winner: Winner, w: Leaves): real {
    match winner
    case P1 => w.loss
    case P2 => w.win
    case Draw => w.draw
  }

  function ScoreAfter(k: Score, winner: Winner): Score {
    match winner
    case P1 => AfterLoss(k)
    case P2 => AfterWin(k)
    case Draw => AfterDraw(k)
  }

  /** For every match in progress and every affordable pair of actions, one turn of
      the engine is one cell of the second player's stage game. Either the round
      ends, and the cell is the matching leaf whatever the leaves and the
      continuation, and the score moves accordingly; or it goes on, and the cell is
      the continuation at exactly the engine's next ki and turn. */
  lemma SubmitIsStage(gs: GameState, opp: Action, me: Action, w: Leaves, f: ValueFn)
    requires Valid(gs) && gs.status == InProgress
    requires Affordable(opp, gs.current.value.p1Ki) && Affordable(me, gs.current.value.p2Ki)
    ensures SubmitTurn(gs, opp, me).Ok?
    ensures var r := gs.current.value;
      var sub := SubmitTurn(gs, opp, me).value;
      match sub.round
      case Some(rr) =>
        && StagePayoff(me, opp, r.p2Ki, r.p1Ki, r.turnNumber + 1, w, f) == LeafOf(rr.winner, w)
        && sub.state.wonP1 >= 0 && sub.state.wonP2 >= 0 && ScoreOf(sub.state) == ScoreAfter(ScoreOf(gs), rr.winner)
        && (sub.state.current == None || sub.state.current == Some(NewRound(sub.state.results)))
      case None =>
        && sub.state.current.Some?
        && var next := sub.state.current.value;
        && StagePayoff(me, opp, r.p2Ki, r.p1Ki, r.turnNumber + 1, w, f)
           == f(next.p2Ki, next.p1Ki, next.turnNumber + 1)
        && next.turnNumber == r.turnNumber + 1 < TURN_LIMIT
        && next.p2Ki == KiAfter(me, r.p2Ki) && next.p1Ki == KiAfter(opp, r.p1Ki)
        && sub.state.wonP1 == gs.wonP1 && sub.state.wonP2 == gs.wonP2 && sub.state.results == gs.results
        && sub.state.status == InProgress
  {
    hide Chain, SumTurns, CountWins;
    var r := gs.current.value;
    assert ImmediateOutcome(me, opp) ==
      (match Resolve(opp, me) case P2WinsRound => 1 case P1WinsRound => -1 case _ => 0);
    var t := ResolveTurn(r.turnNumber + 1, opp, me, r.p1Ki, r.p2Ki);
    assert t.p1After == KiAfter(opp, r.p1Ki) && t.p2After == KiAfter(me, r.p2Ki) && t.outcome == Resolve(opp, me);
  }

  // ----- a whole match -----

  /** A mixed way to play a match, given the actions so far, the second player's first,
      and the match state. */
  type MatchPolicy = (History, GameState) -> Vec

  /** A share for every situation of a match. */
  type MatchShare = (History, GameState) -> real

  ghost predicate LegalSecond(row: MatchPolicy) {
    forall h, gs: GameState :: Valid(gs) && gs.status == InProgress ==> MixFor(row(h, gs), gs.current.value.p2Ki)
  }

  ghost predicate LegalFirst(opp: MatchPolicy) {
    forall h, gs: GameState :: Valid(gs) && gs.status == InProgress ==> MixFor(opp(h, gs), gs.current.value.p1Ki)
  }

  lemma ScoreIsPreRound(gs: GameState)
    requires Valid(gs) && gs.current.Some?
    ensures PreRound(ScoreOf(gs)) && Terminal(ScoreOf(gs)) == None
  {}

  lemma KiInRange(gs: GameState)
    requires Valid(gs) && gs.current.Some?
    ensures KiRange(gs.current.value.p1Ki) && KiRange(gs.current.value.p2Ki)
    ensures 0 <= gs.current.value.turnNumber < TURN_LIMIT
  {
    hide CountWins, SumTurns;
    var r := gs.current.value;
    ChainRange(r.history, r.p1Ki, r.p2Ki);
  }

  /** The draw weight of the table in use. */
  function WeightNow(b: Build, gs: GameState): real
    requires Valid(gs) && gs.current.Some?
  {
    ScoreIsPreRound(gs);
    TableWeight(b, ScoreOf(gs))
  }

  /** The solved mix at a match state: the table of the current score, at the current ki and turn. */
  function SolvedMix(b: Build, gs: GameState): (x: Vec)
    requires Valid(gs) && gs.status == InProgress
  {
    KiInRange(gs);
    var r := gs.current.value;
    Mix(b.solver, LamLeaves(WeightNow(b, gs)), r.p2Ki, r.p1Ki, r.turnNumber + 1)
  }

  /** Win 1, draw one half, loss 0, for the second player. */
  function FinalScore(gs: GameState): real {
    match MatchWinner(gs)
    case Some(P2) => 1.0
    case Some(P1) => 0.0
    case _ => 0.5
  }

  /** Expected final score of the second player. */
  ghost function ExpectedScore(row: MatchPolicy, opp: MatchPolicy, gs: GameState, h: History): real
    requires Valid(gs) && gs.status != Abandoned && LegalSecond(row) && LegalFirst(opp)
    decreases TurnsLeft(gs), 2
  {
    if gs.status == Completed then FinalScore(gs)
    else
      Bilinear(row(h, gs), ScoreMatrix(row, opp, gs, h), opp(h, gs))
  }

  /** Expected final score after each pair of actions. */
  ghost function ScoreMatrix(row: MatchPolicy, opp: MatchPolicy, gs: GameState, h: History): (m: Mat)
    requires Valid(gs) && gs.status == InProgress && LegalSecond(row) && LegalFirst(opp)
    ensures Shape(m, |AffordableActions(gs.current.value.p2Ki)|, |AffordableActions(gs.current.value.p1Ki)|)
    decreases TurnsLeft(gs), 1
  {
    var rows, cols := AffordableActions(gs.current.value.p2Ki), AffordableActions(gs.current.value.p1Ki);
    seq(|rows|, i requires 0 <= i < |rows| =>
      seq(|cols|, j requires 0 <= j < |cols| => NextScore(row, opp, gs, h, rows[i], cols[j])))
  }

  ghost function NextScore(row: MatchPolicy, opp: MatchPolicy, gs: GameState, h: History, me: Action,
                           other: Action): real
    requires Valid(gs) && gs.status == InProgress && LegalSecond(row) && LegalFirst(opp)
    decreases TurnsLeft(gs), 0
  {
    match SubmitTurn(gs, other, me)
    case Ok(sub) =>
      SubmitKeepsValid(gs, other, me);
      ExpectedScore(row, opp, sub.state, h + [(me, other)])
    case Err(_) => 0.0
  }

  // ----- the claim -----

  /** What is claimed of a match: how the tables were built, the error d of the solver
      per stage, the error u of the rounding, and the share of the floor that is kept. */
  datatype Claim = Claim(b: Build, d: real, u: real, share: MatchShare)

  ghost predicate SoundClaim(cl: Claim) {
    Accurate(cl.b.solver, cl.d) && SoundBuild(cl.b, cl.u)
  }

  /** At every state the way of playing either keeps the share c of the solved mix or
      finishes the round on the spot. */
  ghost predicate KeepsMatchShare(row: MatchPolicy, b: Build, c: MatchShare) {
    forall h, gs: GameState :: Valid(gs) && gs.status == InProgress ==> KeepsMatchShareAt(row, b, c, h, gs)
  }

  ghost predicate KeepsMatchShareAt(row: MatchPolicy, b: Build, c: MatchShare, h: History, gs: GameState)
    requires Valid(gs) && gs.status == InProgress
  {
    && 0.0 <= c(h, gs) <= 1.0
    && |row(h, gs)| == |SolvedMix(b, gs)|
    && (Covers(row(h, gs), SolvedMix(b, gs), c(h, gs)) || FinishesNow(row, h, gs))
  }

  ghost predicate FinishesNow(row: MatchPolicy, h: History, gs: GameState)
    requires Valid(gs) && gs.status == InProgress
  {
    KiInRange(gs);
    Finishes(row(h, gs), gs.current.value.p2Ki, gs.current.value.p1Ki)
  }

  /** What k says after a pair of actions; nothing more can be lost once the match is over. */
  function ShareAfter(k: MatchShare, gs: GameState, h: History, me: Action, other: Action): real {
    match SubmitTurn(gs, other, me)
    case Ok(sub) => if sub.state.status == InProgress then k(h + [(me, other)], sub.state) else 1.0
    case Err(_) => 1.0
  }

  /** k never exceeds the product of the shares c along any way the match can go on:
      one factor for every turn that does not finish a round for certain. */
  ghost predicate MatchSustained(row: MatchPolicy, k: MatchShare, c: MatchShare) {
    forall h, gs: GameState :: Valid(gs) && gs.status == InProgress ==> MatchSustainedAt(row, k, c, h, gs)
  }

  ghost predicate MatchSustainedAt(row: MatchPolicy, k: MatchShare, c: MatchShare, h: History, gs: GameState)
    requires Valid(gs) && gs.status == InProgress
  {
    && 0.0 <= k(h, gs) <= 1.0
    && forall i, j ::
         0 <= i < |AffordableActions(gs.current.value.p2Ki)| && 0 <= j < |AffordableActions(gs.current.value.p1Ki)| ==>
         k(h, gs) <= Times(if FinishesNow(row, h, gs) then 1.0 else c(h, gs), ShareAfterAt(k, gs, h, i, j))
  }

  function ShareAfterAt(k: MatchShare, gs: GameState, h: History, i: nat, j: nat): real
    requires Valid(gs) && gs.status == InProgress
    requires i < |AffordableActions(gs.current.value.p2Ki)| && j < |AffordableActions(gs.current.value.p1Ki)|
  {
    ShareAfter(k, gs, h, AffordableActions(gs.current.value.p2Ki)[i], AffordableActions(gs.current.value.p1Ki)[j])
  }

  /** What the round now being played is worth: the match after each of its endings. */
  function StakesAt(b: Build, k: Score): Leaves {
    var r := RoundValue(b);
    Leaves(Worth(r, AfterWin(k)), Worth(r, AfterDraw(k)), Worth(r, AfterLoss(k)))
  }

  function Lowered(w: Leaves, e: real): Leaves {
    Leaves(w.win - e, w.draw - e, w.loss - e)
  }

  /** The error of the rounds after the current one: d for each of their turns, and u
      for the rounding of their draw weight. */
  function LaterError(d: real, u: real, played: int): real {
    (2 - played) as real * (20.0 * d + u)
  }

  /** The stakes of the current round less the errors that its turns do not account for. */
  function LoweredStakes(cl: Claim, k: Score): Leaves {
    Lowered(StakesAt(cl.b, k), LaterError(cl.d, cl.u, k.played) + cl.u)
  }

  /** The lower bound claimed at a state of a match in progress, of which a share is kept. */
  ghost function ScoreFloor(cl: Claim, gs: GameState): real
    requires Valid(gs) && gs.status == InProgress
  {
    var r := gs.current.value;
    Discounted(LoweredStakes(cl, ScoreOf(gs)), 1.0,
      Value(cl.b.solver, LamLeaves(WeightNow(cl.b, gs)), r.p2Ki, r.p1Ki, r.turnNumber + 1)
      - Slack(cl.d, r.turnNumber + 1))
  }

  ghost predicate ScoreOk(cl: Claim, row: MatchPolicy, opp: MatchPolicy, gs: GameState, h: History)
    requires Valid(gs) && gs.status != Abandoned && LegalSecond(row) && LegalFirst(opp)
  {
    var e := ExpectedScore(row, opp, gs, h);
    0.0 <= e <= 1.0 && (gs.status == InProgress ==> e >= Times(cl.share(h, gs), ScoreFloor(cl, gs)))
  }

  // ----- errors and shares -----

  lemma LaterErrorStep(d: real, u: real, played: int)
    requires d >= 0.0 && u >= 0.0 && 0 <= played <= 2
    ensures LaterError(d, u, played) >= 0.0
    ensures LaterError(d, u, played - 1) == LaterError(d, u, played) + 20.0 * d + u
  {
    var n, e := (2 - played) as real, 20.0 * d + u;
    assert (2 - (played - 1)) as real == n + 1.0;
    assert (n + 1.0) * e == n * e + e;
    MulNonNeg(n, e);
  }

  lemma StakesProper(b: Build, u: real, k: Score)
    requires SoundBuild(b, u) && PreRound(k)
    ensures Terminal(k) == None
    ensures var lam := DrawWeight(RoundValue(b), k);
      && 0.0 <= TableWeight(b, k) <= 1.0 && -u <= TableWeight(b, k) - lam <= u
      && Proper(StakesAt(b, k), lam)
      && 0.0 <= Span(StakesAt(b, k)) <= 1.0
      && Worth(RoundValue(b), k) == InUnits(StakesAt(b, k), RoundStart(b.solver, TableWeight(b, k)))
  {
    hide Worth, DrawWeight, RoundStart;
    var r := RoundValue(b);
    RoundValueIsOracle(b, u);
    MatchWellFormed(r, k);
    TerminalOrNot(r, k);
    var w, lam := StakesAt(b, k), DrawWeight(r, k);
    assert RoundedOk(b.round, lam, u);
    BetweenInUnits(w, lam);
    BetweenInUnits(w, r(lam));
  }

  lemma BetweenInUnits(w: Leaves, v: real)
    ensures Between(w.win, w.loss, v) == InUnits(w, v)
  {}

  /** Lowering the leaves and discounting by an error cost at most their sum. */
  lemma LoweredAtMost(w: Leaves, e: real, p: real, f: real)
    requires 0.0 <= Span(w) <= 1.0 && f >= 0.0
    ensures Discounted(Lowered(w, e), 1.0, p - f) <= InUnits(w, p) - e
    ensures Discounted(Lowered(w, e), 1.0, p - f) >= InUnits(w, p) - e - f
  {
    hide Discounted, InUnits;
    LoweredBetween(w, e, p, p - f);
  }

  lemma LoweredBetween(w: Leaves, e: real, p: real, q: real)
    requires 0.0 <= Span(w) <= 1.0 && q <= p
    ensures InUnits(w, p) - e - (p - q) <= Discounted(Lowered(w, e), 1.0, q)
    ensures Discounted(Lowered(w, e), 1.0, q) <= InUnits(w, p) - e
  {
    hide Span, Discounted, Lowered, InUnits, Times;
    LoweredValue(w, e, q);
    UnitsValue(w, p);
    TimesBetween(Span(w), p, q);
  }

  lemma LoweredValue(w: Leaves, e: real, p: real)
    ensures Discounted(Lowered(w, e), 1.0, p) == w.loss - e + Times(Span(w), p)
  {}

  lemma UnitsValue(w: Leaves, p: real)
    ensures InUnits(w, p) == w.loss + Times(Span(w), p)
  {}

  lemma TimesRest(u: real, p: real)
    ensures Times(1.0 - u, p) == p - Times(u, p)
  {}

  lemma TimesMono(u: real, q: real, p: real)
    requires u >= 0.0 && q <= p
    ensures Times(u, q) <= Times(u, p)
  {}

  lemma TimesBetween(u: real, p: real, q: real)
    requires 0.0 <= u <= 1.0 && q <= p
    ensures Times(u, p) - (p - q) <= Times(u, q) <= Times(u, p)
  {
    hide Times;
    TimesMono(u, q, p);
    TimesMono(1.0 - u, q, p);
    TimesRest(u, p);
    TimesRest(u, q);
  }

  /** A leaf is worth at least what the table for a weight within u of it says. */
  lemma LeafLowered(w: Leaves, e: real, lam: real, lam': real, u: real, winner: Winner, f: real)
    requires Proper(w, lam) && 0.0 <= Span(w) <= 1.0 && f >= 0.0 && lam' - lam <= u && 0.0 <= u
    ensures Discounted(Lowered(w, e + u), 1.0, LeafOf(winner, LamLeaves(lam')) - f) <= LeafOf(winner, w) - e
  {
    hide Discounted, Span, Lowered;
    LoweredAtMost(w, e + u, LeafOf(winner, LamLeaves(lam')), f);
    if winner == Draw {
      UnitsNear(w, lam, lam', u);
    } else {
      assert InUnits(w, 1.0) == w.win && InUnits(w, 0.0) == w.loss by { EndUnits(w); }
    }
  }

  lemma EndUnits(w: Leaves)
    ensures InUnits(w, 1.0) == w.win && InUnits(w, 0.0) == w.loss
  {}

  lemma UnitsNear(w: Leaves, lam: real, lam': real, u: real)
    requires 0.0 <= Span(w) <= 1.0 && lam' - lam <= u && 0.0 <= u
    ensures InUnits(w, lam') - u <= InUnits(w, lam)
  {
    hide Span, InUnits, Times;
    UnitsValue(w, lam);
    UnitsValue(w, lam');
    TimesMono(Span(w), lam', lam + u);
    TimesBetween(Span(w), lam + u, lam);
  }

  /** A smaller share of a smaller worth is a weaker claim about a score, which is never negative. */
  lemma WeakerClaim(q: real, k: real, g: real, k': real, g': real)
    requires 0.0 <= q && Times(k, g) <= q && 0.0 <= k' <= k && g' <= g
    ensures Times(k', g') <= q
  {
    if g' >= 0.0 {
      TimesBoth(k', k, g', g);
    } else {
      TimesMono(k', g', 0.0);
    }
  }

  lemma TimesTwice(c: real, q: real, g: real)
    ensures Times(c, Times(q, g)) == Times(Times(c, q), g)
  {}

  // ----- one turn of the claim -----

  /** Right after a round ends, the share kept is one of the worth of the new score, up
      to the error of the rounds still to come. */
  lemma AfterRoundScore(cl: Claim, row: MatchPolicy, opp: MatchPolicy, gs: GameState, h: History)
    requires SoundClaim(cl) && Valid(gs) && gs.status != Abandoned && LegalSecond(row) && LegalFirst(opp)
    requires gs.current == None || gs.current == Some(NewRound(gs.results))
    requires ScoreOk(cl, row, opp, gs, h) && |gs.results| >= 1
    requires gs.status == InProgress ==> 0.0 <= cl.share(h, gs)
    ensures var k := if gs.status == InProgress then cl.share(h, gs) else 1.0;
      ExpectedScore(row, opp, gs, h)
      >= Times(k, Worth(RoundValue(cl.b), ScoreOf(gs)) - LaterError(cl.d, cl.u, |gs.results| - 1))
  {
    hide Worth, DrawWeight, Value, ExpectedScore, Accurate, LaterError, Times;
    AccurateIsSound(cl.b.solver, cl.d);
    LaterErrorStep(cl.d, cl.u, |gs.results| - 1) by { assert |gs.results| <= 3; }
    if gs.status == Completed {
      CompletedScore(cl.b, row, opp, gs, h);
      TimesOne(Worth(RoundValue(cl.b), ScoreOf(gs)) - LaterError(cl.d, cl.u, |gs.results| - 1));
    } else {
      hide CountWins, Chain, PreRound, ResultOk, ScoreFloor, SoundBuild;
      FloorAtStart(cl, gs);
      TimesMono(cl.share(h, gs), Worth(RoundValue(cl.b), ScoreOf(gs)) - LaterError(cl.d, cl.u, |gs.results| - 1),
                ScoreFloor(cl, gs));
    }
  }

  /** At the start of a round the floor is the worth of the score less the errors to come. */
  lemma FloorAtStart(cl: Claim, gs: GameState)
    requires SoundClaim(cl) && Valid(gs) && gs.status == InProgress && gs.current == Some(NewRound(gs.results))
    ensures ScoreFloor(cl, gs) >= Worth(RoundValue(cl.b), ScoreOf(gs)) - LaterError(cl.d, cl.u, |gs.results| - 1)
  {
    hide Worth, DrawWeight, Value, Accurate, LaterError, Discounted, InUnits, Slack, CountWins, Chain, Span, Proper,
      PreRound, ResultOk, StakesAt, Lowered, TableWeight;
    var k := ScoreOf(gs);
    AccurateIsSound(cl.b.solver, cl.d);
    ScoreIsPreRound(gs);
    StakesProper(cl.b, cl.u, k);
    ResultsInPlay(gs);
    LaterErrorStep(cl.d, cl.u, k.played);
    var e, start := LaterError(cl.d, cl.u, k.played) + cl.u, RoundStart(cl.b.solver, WeightNow(cl.b, gs));
    LoweredAtMost(StakesAt(cl.b, k), e, start, 20.0 * cl.d);
    FullSlack(cl.d);
    assert ScoreFloor(cl, gs) == Discounted(Lowered(StakesAt(cl.b, k), e), 1.0, start - Slack(cl.d, 1));
  }

  lemma ResultsInPlay(gs: GameState)
    requires Valid(gs) && gs.status == InProgress
    ensures gs.current.Some? && |gs.results| <= 2
  {}

  lemma FullSlack(d: real)
    ensures Slack(d, 1) == 20.0 * d
  {}

  lemma CompletedScore(b: Build, row: MatchPolicy, opp: MatchPolicy, gs: GameState, h: History)
    requires Valid(gs) && gs.status == Completed && LegalSecond(row) && LegalFirst(opp)
    ensures ExpectedScore(row, opp, gs, h) == Worth(RoundValue(b), ScoreOf(gs))
  {}

  lemma LeafIsWorth(b: Build, k: Score, winner: Winner)
    ensures Worth(RoundValue(b), ScoreAfter(k, winner)) == LeafOf(winner, StakesAt(b, k))
  {}

  /** The solved payoff of a pair of actions, and what it is claimed to be worth to the match. */
  ghost function PairFloor(cl: Claim, gs: GameState, me: Action, other: Action): real
    requires Valid(gs) && gs.status == InProgress
  {
    var r, lam := gs.current.value, WeightNow(cl.b, gs);
    var w := LamLeaves(lam);
    Discounted(LoweredStakes(cl, ScoreOf(gs)), 1.0,
      StagePayoff(me, other, r.p2Ki, r.p1Ki, r.turnNumber + 1, w, Values(cl.b.solver, w))
      - Slack(cl.d, r.turnNumber + 2))
  }

  /** What is claimed of the expected score after one pair of actions. */
  ghost predicate TurnOk(cl: Claim, row: MatchPolicy, opp: MatchPolicy, gs: GameState, h: History, me: Action,
                         other: Action)
    requires Valid(gs) && gs.status == InProgress && LegalSecond(row) && LegalFirst(opp)
  {
    var q := NextScore(row, opp, gs, h, me, other);
    0.0 <= q <= 1.0 && q >= Times(ShareAfter(cl.share, gs, h, me, other), PairFloor(cl, gs, me, other))
  }

  /** A pair of affordable actions was accepted, and the claim holds after it. */
  ghost predicate Onward(cl: Claim, row: MatchPolicy, opp: MatchPolicy, gs: GameState, h: History, me: Action,
                         other: Action)
    requires Valid(gs) && gs.status == InProgress && LegalSecond(row) && LegalFirst(opp)
  {
    && Affordable(other, gs.current.value.p1Ki) && Affordable(me, gs.current.value.p2Ki)
    && SubmitTurn(gs, other, me).Ok?
    && var next := SubmitTurn(gs, other, me).value.state;
    && Valid(next) && next.status != Abandoned && ScoreOk(cl, row, opp, next, h + [(me, other)])
    && 0.0 <= ShareAfter(cl.share, gs, h, me, other) <= 1.0
  }

  lemma NextScoreIs(cl: Claim, row: MatchPolicy, opp: MatchPolicy, gs: GameState, h: History, me: Action, other: Action)
    requires Valid(gs) && gs.status == InProgress && LegalSecond(row) && LegalFirst(opp)
    requires Onward(cl, row, opp, gs, h, me, other)
    ensures NextScore(row, opp, gs, h, me, other)
         == ExpectedScore(row, opp, SubmitTurn(gs, other, me).value.state, h + [(me, other)])
    ensures 0.0 <= NextScore(row, opp, gs, h, me, other) <= 1.0
  {
    hide ExpectedScore, SubmitTurn, ScoreFloor, ShareAfter;
  }

  /** The expected score after a pair of actions with which the round goes on. */
  lemma RoundGoesOn(cl: Claim, row: MatchPolicy, opp: MatchPolicy, gs: GameState, h: History, me: Action, other: Action)
    requires SoundClaim(cl) && Valid(gs) && gs.status == InProgress && LegalSecond(row) && LegalFirst(opp)
    requires Onward(cl, row, opp, gs, h, me, other) && SubmitTurn(gs, other, me).value.round == None
    ensures TurnOk(cl, row, opp, gs, h, me, other)
  {
    hide Worth, DrawWeight, Value, ExpectedScore, NextScore, Accurate, LaterError, Slack, Discounted, StagePayoff,
      SubmitTurn, ResultOk, RoundOk, CountWins, StakesAt, Lowered, MatchWinner, Times;
    var r, k, lam := gs.current.value, ScoreOf(gs), WeightNow(cl.b, gs);
    var sub := SubmitTurn(gs, other, me).value;
    SubmitIsStage(gs, other, me, LamLeaves(lam), Values(cl.b.solver, LamLeaves(lam)));
    assert ScoreOf(sub.state) == k;
    NextScoreIs(cl, row, opp, gs, h, me, other);
    assert ShareAfter(cl.share, gs, h, me, other) == cl.share(h + [(me, other)], sub.state);
  }

  lemma RoundEndScore(cl: Claim, row: MatchPolicy, opp: MatchPolicy, gs: GameState, h: History, me: Action,
                      other: Action)
    requires SoundClaim(cl) && Valid(gs) && gs.status == InProgress && LegalSecond(row) && LegalFirst(opp)
    requires Onward(cl, row, opp, gs, h, me, other) && SubmitTurn(gs, other, me).value.round.Some?
    ensures var k, winner := ScoreOf(gs), SubmitTurn(gs, other, me).value.round.value.winner;
      NextScore(row, opp, gs, h, me, other)
      >= Times(ShareAfter(cl.share, gs, h, me, other),
               LeafOf(winner, StakesAt(cl.b, k)) - LaterError(cl.d, cl.u, k.played))
  {
    hide Worth, DrawWeight, ExpectedScore, Accurate, LaterError, SubmitTurn, StakesAt, ScoreOk, NextScore, LeafOf,
      ResultOk, RoundOk, CountWins, Times;
    var k, sub := ScoreOf(gs), SubmitTurn(gs, other, me).value;
    SubmitIsStage(gs, other, me, LamLeaves(0.5), (_, _, _) => 0.0);
    assert sub.state.status == InProgress ==>
      ShareAfter(cl.share, gs, h, me, other) == cl.share(h + [(me, other)], sub.state);
    AfterRoundScore(cl, row, opp, sub.state, h + [(me, other)]);
    LeafIsWorth(cl.b, k, sub.round.value.winner);
    NextScoreIs(cl, row, opp, gs, h, me, other);
  }

  /** The expected score after a pair of actions that ends the round. */
  lemma RoundEnds(cl: Claim, row: MatchPolicy, opp: MatchPolicy, gs: GameState, h: History, me: Action, other: Action)
    requires SoundClaim(cl) && Valid(gs) && gs.status == InProgress && LegalSecond(row) && LegalFirst(opp)
    requires Onward(cl, row, opp, gs, h, me, other) && SubmitTurn(gs, other, me).value.round.Some?
    ensures TurnOk(cl, row, opp, gs, h, me, other)
  {
    hide Worth, DrawWeight, Value, ExpectedScore, Accurate, LaterError, Slack, Discounted, StagePayoff, SubmitTurn,
      StakesAt, Lowered, ScoreOk, NextScore, Span, Proper, LeafOf, ResultOk, RoundOk, CountWins, Times, ShareAfter,
      TableWeight;
    var r, k, lam := gs.current.value, ScoreOf(gs), WeightNow(cl.b, gs);
    var winner := SubmitTurn(gs, other, me).value.round.value.winner;
    SubmitIsStage(gs, other, me, LamLeaves(lam), Values(cl.b.solver, LamLeaves(lam)));
    AccurateIsSound(cl.b.solver, cl.d);
    ScoreIsPreRound(gs);
    StakesProper(cl.b, cl.u, k);
    KiInRange(gs);
    SlackStep(cl.d, r.turnNumber + 1);
    RoundEndScore(cl, row, opp, gs, h, me, other);
    NextScoreIs(cl, row, opp, gs, h, me, other);
    LeafLowered(StakesAt(cl.b, k), LaterError(cl.d, cl.u, k.played), DrawWeight(RoundValue(cl.b), k), lam, cl.u,
                winner, Slack(cl.d, r.turnNumber + 2));
    TimesMono(ShareAfter(cl.share, gs, h, me, other), PairFloor(cl, gs, me, other),
              LeafOf(winner, StakesAt(cl.b, k)) - LaterError(cl.d, cl.u, k.played));
  }

  // ----- a turn of the match -----

  /** The claim holds after every pair of affordable actions. */
  ghost predicate TurnsOk(cl: Claim, row: MatchPolicy, opp: MatchPolicy, gs: GameState, h: History)
    requires Valid(gs) && gs.status == InProgress && LegalSecond(row) && LegalFirst(opp)
  {
    forall me, other ::
      me in AffordableActions(gs.current.value.p2Ki) && other in AffordableActions(gs.current.value.p1Ki) ==>
      TurnOk(cl, row, opp, gs, h, me, other)
  }

  /** The least share after a pair of actions. */
  lemma LeastAfter(cl: Claim, row: MatchPolicy, c: MatchShare, gs: GameState, h: History) returns (q: real)
    requires Valid(gs) && gs.status == InProgress && MatchSustained(row, cl.share, c)
    ensures 0.0 <= q <= 1.0
    ensures 0.0 <= cl.share(h, gs) <= Times(if FinishesNow(row, h, gs) then 1.0 else c(h, gs), q)
    ensures forall i, j ::
      0 <= i < |AffordableActions(gs.current.value.p2Ki)| && 0 <= j < |AffordableActions(gs.current.value.p1Ki)| ==>
      q <= ShareAfterAt(cl.share, gs, h, i, j)
  {
    hide AffordableActions, SubmitTurn, Times, ShareAfterAt, Chain, CountWins, SumTurns, ResultOk;
    var n, l := |AffordableActions(gs.current.value.p2Ki)|, |AffordableActions(gs.current.value.p1Ki)|;
    assert MatchSustainedAt(row, cl.share, c, h, gs);
    KiInRange(gs);
    ActionAt(gs.current.value.p2Ki, 0) by { AffordableCases(gs.current.value.p2Ki); }
    ActionAt(gs.current.value.p1Ki, 0) by { AffordableCases(gs.current.value.p1Ki); }
    var m := seq(n, p requires 0 <= p < n => seq(l, q requires 0 <= q < l => ShareAfterAt(cl.share, gs, h, p, q)));
    var i, j;
    q, i, j := LeastEntry(m, n, l);
    assert m[i][j] == ShareAfterAt(cl.share, gs, h, i, j);
    AfterInUnit(row, cl.share, c, gs, h, i, j);
    forall i, j | 0 <= i < n && 0 <= j < l ensures q <= ShareAfterAt(cl.share, gs, h, i, j) {
      assert m[i][j] == ShareAfterAt(cl.share, gs, h, i, j);
    }
  }

  lemma AfterInUnit(row: MatchPolicy, k: MatchShare, c: MatchShare, gs: GameState, h: History, i: nat, j: nat)
    requires Valid(gs) && gs.status == InProgress && MatchSustained(row, k, c)
    requires i < |AffordableActions(gs.current.value.p2Ki)| && j < |AffordableActions(gs.current.value.p1Ki)|
    ensures 0.0 <= ShareAfterAt(k, gs, h, i, j) <= 1.0
  {
    hide AffordableActions, SubmitTurn, Times, Chain, CountWins, SumTurns, ResultOk;
    var me, other := AffordableActions(gs.current.value.p2Ki)[i], AffordableActions(gs.current.value.p1Ki)[j];
    if SubmitTurn(gs, other, me).Ok? {
      SubmitKeepsValid(gs, other, me);
      var next := SubmitTurn(gs, other, me).value.state;
      if next.status == InProgress {
        assert MatchSustainedAt(row, k, c, h + [(me, other)], next);
      }
    }
  }

  /** What the entries say about the matrix of one turn. */
  lemma TurnEntries(cl: Claim, row: MatchPolicy, opp: MatchPolicy, gs: GameState, h: History, q: real)
    requires Valid(gs) && gs.status == InProgress && LegalSecond(row) && LegalFirst(opp)
    requires TurnsOk(cl, row, opp, gs, h) && 0.0 <= q
    requires forall i, j ::
      0 <= i < |AffordableActions(gs.current.value.p2Ki)| && 0 <= j < |AffordableActions(gs.current.value.p1Ki)| ==>
      q <= ShareAfterAt(cl.share, gs, h, i, j)
    ensures var r, m := gs.current.value, ScoreMatrix(row, opp, gs, h);
      var rows, cols := AffordableActions(r.p2Ki), AffordableActions(r.p1Ki);
      && Game(m, |rows|, |cols|) && EntriesWithin(m, |rows|, |cols|, 0.0, 1.0)
      && forall i, j :: 0 <= i < |rows| && 0 <= j < |cols| ==>
           m[i][j] >= Times(q, PairFloor(cl, gs, rows[i], cols[j]))
  {
    hide NextScore, AffordableActions, PairFloor, SubmitTurn, ShareAfter, Times, Chain, CountWins, SumTurns, ResultOk;
    var r, m := gs.current.value, ScoreMatrix(row, opp, gs, h);
    var rows, cols := AffordableActions(r.p2Ki), AffordableActions(r.p1Ki);
    KiInRange(gs);
    ActionAt(r.p2Ki, 0) by { AffordableCases(r.p2Ki); }
    ActionAt(r.p1Ki, 0) by { AffordableCases(r.p1Ki); }
    forall i, j | 0 <= i < |rows| && 0 <= j < |cols|
      ensures 0.0 <= m[i][j] <= 1.0 && m[i][j] >= Times(q, PairFloor(cl, gs, rows[i], cols[j]))
    {
      assert TurnOk(cl, row, opp, gs, h, rows[i], cols[j]);
      assert q <= ShareAfterAt(cl.share, gs, h, i, j);
      WeakerClaim(m[i][j], ShareAfterAt(cl.share, gs, h, i, j), PairFloor(cl, gs, rows[i], cols[j]),
                  q, PairFloor(cl, gs, rows[i], cols[j]));
    }
  }

  /** From the entries of one turn to the expected score before it: a share of the solved mix. */
  lemma ShareTurn(cl: Claim, row: MatchPolicy, opp: MatchPolicy, c: MatchShare, gs: GameState, h: History, q: real)
    requires SoundClaim(cl) && Valid(gs) && gs.status == InProgress && LegalSecond(row) && LegalFirst(opp)
    requires TurnsOk(cl, row, opp, gs, h) && 0.0 <= q && 0.0 <= c(h, gs) <= 1.0
    requires |row(h, gs)| == |SolvedMix(cl.b, gs)| && Covers(row(h, gs), SolvedMix(cl.b, gs), c(h, gs))
    requires forall i, j ::
      0 <= i < |AffordableActions(gs.current.value.p2Ki)| && 0 <= j < |AffordableActions(gs.current.value.p1Ki)| ==>
      q <= ShareAfterAt(cl.share, gs, h, i, j)
    requires 0.0 <= cl.share(h, gs) <= Times(c(h, gs), q)
    ensures ScoreOk(cl, row, opp, gs, h)
  {
    hide Worth, DrawWeight, Value, NextScore, Accurate, LaterError, Slack, Discounted, Chain, StagePayoff,
      AffordableActions, Bilinear, Mix, SubmitTurn, ResultOk, CountWins, StakesAt, Times, Covers, ScoreMatrix,
      ShareAfterAt, TableWeight, TurnsOk;
    var r, k, lam := gs.current.value, ScoreOf(gs), WeightNow(cl.b, gs);
    var w, m, x, y := LoweredStakes(cl, k), ScoreMatrix(row, opp, gs, h), row(h, gs), opp(h, gs);
    var turn, e := r.turnNumber + 1, Slack(cl.d, r.turnNumber + 2);
    ScoreIsPreRound(gs);
    StakesProper(cl.b, cl.u, k);
    KiInRange(gs);
    AccurateIsSound(cl.b.solver, cl.d);
    SlackStep(cl.d, turn);
    TurnEntries(cl, row, opp, gs, h, q);
    EntriesAreFloors(cl, gs, m, q);
    PartStep(cl.b.solver, lam, cl.d, w, e, q, c(h, gs), r.p2Ki, r.p1Ki, turn, m, x, y);
    TimesTwice(c(h, gs), q, ScoreFloor(cl, gs));
    WeakerClaim(Bilinear(x, m, y), Times(c(h, gs), q), ScoreFloor(cl, gs), cl.share(h, gs), ScoreFloor(cl, gs));
  }

  /** The floors of the pairs are the stage the table was solved for. */
  lemma EntriesAreFloors(cl: Claim, gs: GameState, m: Mat, q: real)
    requires Valid(gs) && gs.status == InProgress
    requires var rows, cols := AffordableActions(gs.current.value.p2Ki), AffordableActions(gs.current.value.p1Ki);
      Shape(m, |rows|, |cols|) && forall i, j :: 0 <= i < |rows| && 0 <= j < |cols| ==>
        m[i][j] >= Times(q, PairFloor(cl, gs, rows[i], cols[j]))
    ensures var r, w := gs.current.value, LamLeaves(WeightNow(cl.b, gs));
      var a := StageMatrix(r.p2Ki, r.p1Ki, r.turnNumber + 1, w, Values(cl.b.solver, w));
      forall i, j :: 0 <= i < |AffordableActions(r.p2Ki)| && 0 <= j < |AffordableActions(r.p1Ki)| ==>
        m[i][j] >= Times(q, Discounted(LoweredStakes(cl, ScoreOf(gs)), 1.0, a[i][j] - Slack(cl.d, r.turnNumber + 2)))
  {
    hide Valid, StagePayoff, Times, Slack, Discounted, LoweredStakes, AffordableActions, TableWeight, Values;
  }

  /** The same when the round is finished at once. */
  lemma FinishTurn(cl: Claim, row: MatchPolicy, opp: MatchPolicy, gs: GameState, h: History, q: real)
    requires SoundClaim(cl) && Valid(gs) && gs.status == InProgress && LegalSecond(row) && LegalFirst(opp)
    requires TurnsOk(cl, row, opp, gs, h) && 0.0 <= q && FinishesNow(row, h, gs)
    requires forall i, j ::
      0 <= i < |AffordableActions(gs.current.value.p2Ki)| && 0 <= j < |AffordableActions(gs.current.value.p1Ki)| ==>
      q <= ShareAfterAt(cl.share, gs, h, i, j)
    requires 0.0 <= cl.share(h, gs) <= q
    ensures ScoreOk(cl, row, opp, gs, h)
  {
    hide Worth, DrawWeight, Value, NextScore, Accurate, Slack, Chain,
      AffordableActions, Bilinear, SubmitTurn, ResultOk, CountWins, Times, ScoreMatrix, ShareAfterAt,
      Finishes, PairFloor, TurnsOk, ScoreFloor, ImmediateOutcome;
    var r, m, x, y := gs.current.value, ScoreMatrix(row, opp, gs, h), row(h, gs), opp(h, gs);
    var g := ScoreFloor(cl, gs);
    KiInRange(gs);
    TurnEntries(cl, row, opp, gs, h, q);
    var rows, cols := AffordableActions(r.p2Ki), AffordableActions(r.p1Ki);
    forall i, j | 0 <= i < |x| && 0 <= j < |y|
      ensures ImmediateOutcome(rows[i], cols[j]) == 1 ==> m[i][j] >= Times(cl.share(h, gs), g)
    {
      if ImmediateOutcome(rows[i], cols[j]) == 1 {
        WinAboveFloor(cl, gs, rows[i], cols[j]);
        WeakerClaim(m[i][j], q, PairFloor(cl, gs, rows[i], cols[j]), cl.share(h, gs), g);
      }
    }
    FinishAtLeast(Times(cl.share(h, gs), g), r.p2Ki, r.p1Ki, m, x, y);
    AverageInUnit(m, x, y);
  }

  /** Winning the round is worth at least its floor. */
  lemma WinAboveFloor(cl: Claim, gs: GameState, me: Action, other: Action)
    requires SoundClaim(cl) && Valid(gs) && gs.status == InProgress && ImmediateOutcome(me, other) == 1
    ensures ScoreFloor(cl, gs) <= PairFloor(cl, gs, me, other)
  {
    hide Worth, DrawWeight, Value, Accurate, Slack, Chain, ResultOk, CountWins, Times, ImmediateOutcome, StakesAt,
      LaterError, Span, TableWeight, Discounted, InUnits, SumTurns;
    var r, k, lam := gs.current.value, ScoreOf(gs), WeightNow(cl.b, gs);
    var s, w := cl.b.solver, StakesAt(cl.b, k);
    ScoreIsPreRound(gs);
    KiInRange(gs);
    StakesProper(cl.b, cl.u, k);
    AccurateIsSound(s, cl.d);
    ValueRange(s, lam, r.p2Ki, r.p1Ki, r.turnNumber + 1);
    SlackStep(cl.d, r.turnNumber + 1);
    var e := LaterError(cl.d, cl.u, k.played) + cl.u;
    var p := Value(s, LamLeaves(lam), r.p2Ki, r.p1Ki, r.turnNumber + 1) - Slack(cl.d, r.turnNumber + 1);
    LoweredValue(w, e, p);
    LoweredValue(w, e, 1.0 - Slack(cl.d, r.turnNumber + 2));
    TimesMono(Span(w), p, 1.0 - Slack(cl.d, r.turnNumber + 2));
  }

  lemma CompletedOk(cl: Claim, row: MatchPolicy, opp: MatchPolicy, gs: GameState, h: History)
    requires Valid(gs) && gs.status == Completed && LegalSecond(row) && LegalFirst(opp)
    ensures ScoreOk(cl, row, opp, gs, h)
  {}

  lemma AffordableMember(a: Action, ki: int)
    requires 0 <= ki && a in AffordableActions(ki)
    ensures Affordable(a, ki)
  {
    AffordableCases(ki);
  }

  // ----- the match guarantee -----

  /** Playing at least the share c of the solved mix in every situation, whatever the
      rest, keeps at every state of a match in progress any share k of its floor that c
      sustains, against every opponent, who may mix and use the whole match. */
  lemma {:induction false} ScoreBound(cl: Claim, row: MatchPolicy, opp: MatchPolicy, c: MatchShare, gs: GameState,
                                      h: History)
    requires SoundClaim(cl) && Valid(gs) && gs.status != Abandoned && LegalSecond(row) && LegalFirst(opp)
    requires KeepsMatchShare(row, cl.b, c) && MatchSustained(row, cl.share, c)
    ensures ScoreOk(cl, row, opp, gs, h)
    decreases TurnsLeft(gs)
  {
    hide SoundClaim, ScoreOk, TurnOk, CountWins, SumTurns, AffordableActions, Covers, SolvedMix, FinishesNow,
      MatchSustained, SubmitTurn, Times;
    if gs.status == Completed {
      CompletedOk(cl, row, opp, gs, h);
    } else {
      AllTurnsOk(cl, row, opp, c, gs, h);
      var q := LeastAfter(cl, row, c, gs, h);
      assert KeepsMatchShareAt(row, cl.b, c, h, gs);
      if FinishesNow(row, h, gs) {
        TimesOne(q);
        FinishTurn(cl, row, opp, gs, h, q);
      } else {
        ShareTurn(cl, row, opp, c, gs, h, q);
      }
    }
  }

  lemma {:induction false} AllTurnsOk(cl: Claim, row: MatchPolicy, opp: MatchPolicy, c: MatchShare, gs: GameState,
                                      h: History)
    requires SoundClaim(cl) && Valid(gs) && gs.status == InProgress && LegalSecond(row) && LegalFirst(opp)
    requires KeepsMatchShare(row, cl.b, c) && MatchSustained(row, cl.share, c)
    ensures TurnsOk(cl, row, opp, gs, h)
    decreases TurnsLeft(gs), 0
  {
    hide SoundClaim, ScoreOk, TurnOk, CountWins, SumTurns, AffordableActions, MatchSustained, KeepsMatchShare,
      SubmitTurn;
    var r := gs.current.value;
    KiInRange(gs);
    forall me, other | me in AffordableActions(r.p2Ki) && other in AffordableActions(r.p1Ki)
      ensures TurnOk(cl, row, opp, gs, h, me, other)
    {
      AffordableMember(me, r.p2Ki);
      AffordableMember(other, r.p1Ki);
      SubmitIsStage(gs, other, me, LamLeaves(0.5), (_, _, _) => 0.0);
      SubmitKeepsValid(gs, other, me);
      ScoreBound(cl, row, opp, c, SubmitTurn(gs, other, me).value.state, h + [(me, other)]);
      ActionPlace(me, r.p2Ki);
      ActionPlace(other, r.p1Ki);
      var i: nat :| i < |AffordableActions(r.p2Ki)| && AffordableActions(r.p2Ki)[i] == me;
      var j: nat :| j < |AffordableActions(r.p1Ki)| && AffordableActions(r.p1Ki)[j] == other;
      AfterInUnit(row, cl.share, c, gs, h, i, j);
      assert Onward(cl, row, opp, gs, h, me, other);
      if SubmitTurn(gs, other, me).value.round == None {
        RoundGoesOn(cl, row, opp, gs, h, me, other);
      } else {
        RoundEnds(cl, row, opp, gs, h, me, other);
      }
    }
  }

  lemma ActionPlace(a: Action, ki: int)
    requires a in AffordableActions(ki)
    ensures exists i: nat :: i < |AffordableActions(ki)| && AffordableActions(ki)[i] == a
  {}

  /** At any score before a round: the share kept is one of the worth the match
      induction assigns to the score, less the error of the turns still to come. */
  lemma MatchBoundFrom(cl: Claim, row: MatchPolicy, opp: MatchPolicy, c: MatchShare, gs: GameState, h: History)
    requires SoundClaim(cl) && Valid(gs) && gs.status == InProgress && LegalSecond(row) && LegalFirst(opp)
    requires KeepsMatchShare(row, cl.b, c) && MatchSustained(row, cl.share, c)
    requires gs.current == Some(NewRound(gs.results))
    ensures 0.0 <= cl.share(h, gs) <= 1.0
    ensures ExpectedScore(row, opp, gs, h) >=
      Times(cl.share(h, gs), Worth(RoundValue(cl.b), ScoreOf(gs)) - (3 - |gs.results|) as real * (20.0 * cl.d + cl.u))
  {
    hide SoundClaim, Valid, Worth, ExpectedScore, ScoreFloor, KeepsMatchShare, Times;
    ScoreBound(cl, row, opp, c, gs, h);
    FloorAtStart(cl, gs);
    assert MatchSustainedAt(row, cl.share, c, h, gs);
    assert LaterError(cl.d, cl.u, |gs.results| - 1) == (3 - |gs.results|) as real * (20.0 * cl.d + cl.u);
    TimesMono(cl.share(h, gs), Worth(RoundValue(cl.b), ScoreOf(gs)) - LaterError(cl.d, cl.u, |gs.results| - 1),
              ScoreFloor(cl, gs));
  }

  /** And of one half at the start of a match. */
  lemma MatchBound(cl: Claim, row: MatchPolicy, opp: MatchPolicy, c: MatchShare)
    requires SoundClaim(cl) && LegalSecond(row) && LegalFirst(opp)
    requires KeepsMatchShare(row, cl.b, c) && MatchSustained(row, cl.share, c)
    ensures Valid(StartMatch())
    ensures ExpectedScore(row, opp, StartMatch(), [])
      >= Times(cl.share([], StartMatch()), 0.5 - 60.0 * cl.d - 3.0 * cl.u)
  {
    hide Accurate, Worth, ExpectedScore, KeepsMatchShare, MatchSustained, Times;
    MatchBoundFrom(cl, row, opp, c, StartMatch(), []);
    RoundValueIsOracle(cl.b, cl.u);
    MatchWellFormed(RoundValue(cl.b), Score(0, 0, 0));
  }

  // ----- playing the tables -----

  /** The solved mix of the current score, ki and turn, at every turn of a match. */
  ghost function TablePlay(b: Build): MatchPolicy {
    (h, gs) => if Valid(gs) && gs.status == InProgress then SolvedMix(b, gs) else []
  }

  const WHOLE: MatchShare := (h, gs) => 1.0

  lemma TablePlayKeeps(b: Build, u: real)
    requires SoundBuild(b, u)
    ensures LegalSecond(TablePlay(b)) && KeepsMatchShare(TablePlay(b), b, WHOLE)
    ensures MatchSustained(TablePlay(b), WHOLE, WHOLE)
  {
    hide Mix, Covers, TableWeight, SubmitTurn, Times, Finishes, Chain, CountWins, SumTurns, ResultOk;
    var row := TablePlay(b);
    forall h: History, gs: GameState | Valid(gs) && gs.status == InProgress
      ensures MixFor(row(h, gs), gs.current.value.p2Ki)
      ensures KeepsMatchShareAt(row, b, WHOLE, h, gs) && MatchSustainedAt(row, WHOLE, WHOLE, h, gs)
    {
      var r := gs.current.value;
      KiInRange(gs);
      MixLegal(b.solver, LamLeaves(WeightNow(b, gs)), r.p2Ki, r.p1Ki, r.turnNumber + 1);
      CoversSelf(SolvedMix(b, gs));
      TimesOne(1.0);
    }
  }

  /** The match guarantee. Playing the table of the current score at every turn of a
      best-of-three on the engine earns an expected score of at least one half, less
      sixty times the error of the solver per stage and three times the rounding of
      the draw weights, against every mixed opponent who may use the whole history. */
  lemma MatchGuarantee(b: Build, d: real, u: real, opp: MatchPolicy)
    requires Accurate(b.solver, d) && SoundBuild(b, u) && LegalFirst(opp)
    ensures Valid(StartMatch()) && LegalSecond(TablePlay(b))
    ensures ExpectedScore(TablePlay(b), opp, StartMatch(), []) >= 0.5 - 60.0 * d - 3.0 * u
  {
    hide Accurate, SoundBuild, ExpectedScore, TablePlay;
    TablePlayKeeps(b, u);
    MatchBound(Claim(b, d, u, WHOLE), TablePlay(b), opp, WHOLE);
  }

  /** At any score before a round, the expected score is at least the worth the
      match induction assigns to it, less the error of the turns still to come. */
  lemma MatchGuaranteeFrom(b: Build, d: real, u: real, opp: MatchPolicy, gs: GameState, h: History)
    requires Accurate(b.solver, d) && SoundBuild(b, u) && LegalFirst(opp) && Valid(gs) && gs.status == InProgress
    requires gs.current == Some(NewRound(gs.results))
    ensures LegalSecond(TablePlay(b))
    ensures ExpectedScore(TablePlay(b), opp, gs, h)
         >= Worth(RoundValue(b), ScoreOf(gs)) - (3 - |gs.results|) as real * (20.0 * d + u)
  {
    hide Accurate, SoundBuild, ExpectedScore, TablePlay, Worth, Valid;
    TablePlayKeeps(b, u);
    MatchBoundFrom(Claim(b, d, u, WHOLE), TablePlay(b), opp, WHOLE, gs, h);
  }
}
