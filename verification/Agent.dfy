/** The agent: the decision it draws its next action from, and what playing that way
    keeps of the match guarantee. */
module Agent {
  import opened Wrappers
  import opened GameRules
  import opened MatchEngine
  import opened EngineInvariants
  import opened Vectors
  import opened MatrixGame
  import opened ZeroSum
  import opened StageGame
  import opened RoundSolver
  import opened RoundGuarantee
  import opened MatchSolver
  import opened Strategies
  import opened EngineGuarantee
  import opened KeptShares
  import opened OpponentModel
  import opened Exploit
  import opened Blending
  import opened Decision

  // ----- the decision procedure -----

  /** Table lookup, model, weight, best reply, blend, noise. */
  method FinalDistribution(v: array3<real>, sigma: array3<Vec>, lam: real, ghost s: Solver, myKi: int, oppKi: int,
                           turn: int, history: seq<TurnResult>, gs: GameState, bias: BiasMeasure)
    returns (dist: Vec)
    requires Sound(s) && TableFilled(v, sigma, s, lam) && KiRange(myKi) && KiRange(oppKi) && 1 <= turn <= TURN_LIMIT
    ensures |Reply(s, lam, history, myKi, oppKi, turn)| == |AffordableActions(myKi)|
    ensures dist == Final(StoredMix(s, LamLeaves(lam), myKi, oppKi, turn),
                          Spread(Reply(s, lam, history, myKi, oppKi, turn), myKi),
                          EpsFor(|history|, gs.wonP2, gs.wonP1, bias(Model(history, oppKi), oppKi)), myKi)
    ensures Exploits(dist, sigma[myKi, oppKi, turn - 1], Spread(Reply(s, lam, history, myKi, oppKi, turn), myKi),
                     EpsFor(|history|, gs.wonP2, gs.wonP1, bias(Model(history, oppKi), oppKi)), myKi)
  {
    hide Value, Model, StoredMix, Noised, Blend, EpsFor, BestMix, StageMatrix, Lookup, SameLayer, Exploits, Simplex,
      AffordableActions;
    var gto := sigma[ClampKi(myKi), ClampKi(oppKi), ClampTurn(turn) - 1];
    assert gto == StoredMix(s, LamLeaves(lam), myKi, oppKi, turn);
    var oppProbs := ModelOpponent(history, oppKi);
    var eps := AdaptiveEps(history, gs, bias(oppProbs, oppKi));
    var next := Lookup(v, turn);
    LookupIsTable(v, s, LamLeaves(lam), turn);
    StageReadsNextLayer(myKi, oppKi, turn, LamLeaves(lam), next, Values(s, LamLeaves(lam)));
    var br := BestResponse(oppProbs, myKi, oppKi, turn, lam, next);
    var affordable := AffordableActions(myKi);
    dist := AddNoise(Blend(gto, br, eps), affordable);
    ReplyIsMix(s, lam, history, myKi, oppKi, turn);
    SpreadLegal(Reply(s, lam, history, myKi, oppKi, turn), myKi);
    FinalExploits(gto, br, eps, myKi);
  }

  lemma ReplyIsMix(s: Solver, lam: real, turns: seq<TurnResult>, myKi: int, oppKi: int, turn: int)
    requires KiRange(myKi) && KiRange(oppKi)
    ensures MixFor(Reply(s, lam, turns, myKi, oppKi, turn), myKi)
  {
    hide Earnings, BestMix, Model, Values, AffordableActions;
    ActionAt(myKi, 0) by { AffordableCases(myKi); }
    BestMixShape(Earnings(Model(turns, oppKi), myKi, oppKi, turn, lam, Values(s, LamLeaves(lam))));
  }

  /** The agent's way of playing at a recorded round, spelled out. */
  lemma AgentAtRound(s: Solver, lam: real, gs: GameState, bias: BiasMeasure)
    requires Sound(s) && Valid(gs) && gs.current.Some?
    ensures var c := gs.current.value;
      var eps := EpsFor(|c.history|, gs.wonP2, gs.wonP1, bias(Model(c.history, ClampKi(c.p1Ki)), ClampKi(c.p1Ki)));
      var br := Reply(s, lam, c.history, c.p2Ki, ClampKi(c.p1Ki), c.turnNumber + 1);
      && KiRange(c.p2Ki) && KiRange(c.p1Ki) && Legal(AgentReply(s, lam)) && MixFor(br, c.p2Ki)
      && RuntimePolicy(s, lam, AgentReply(s, lam), AgentWeight(gs.wonP2, gs.wonP1, bias))
           (MovesOf(c.history), c.p2Ki, c.p1Ki, c.turnNumber + 1)
         == RuntimeMix(s, lam, br, eps, c.p2Ki, c.p1Ki, c.turnNumber + 1)
  {
    hide RuntimeMix, EpsFor, Model, Reply, Chain, CountWins, ResultOk, AffordableActions, Simplex;
    var c := gs.current.value;
    ChainRange(c.history, c.p1Ki, c.p2Ki);
    ReplayRound(c.history, c.p1Ki, c.p2Ki);
    AgentReplyLegal(s, lam);
    assert MixFor(AgentReply(s, lam)(MovesOf(c.history), c.p2Ki, c.p1Ki, c.turnNumber + 1), c.p2Ki);
  }

  lemma FinalIsRuntimeMix(s: Solver, lam: real, br: Vec, eps: real, own: int, other: int, t: int)
    requires Sound(s) && KiRange(own) && KiRange(other) && 1 <= t <= TURN_LIMIT && MixFor(br, own) && 0.0 <= eps <= 1.0
    requires Finisher(own, other) == None
    ensures LegalVector(Final(StoredMix(s, LamLeaves(lam), own, other, t), Spread(br, own), eps, own), own)
    ensures Restrict(Final(StoredMix(s, LamLeaves(lam), own, other, t), Spread(br, own), eps, own), own)
         == RuntimeMix(s, lam, br, eps, own, other, t)
  {
    hide StoredMix, Final, Spread, Restrict;
    SpreadLegal(br, own);
    FinalKeepsShare(StoredMix(s, LamLeaves(lam), own, other, t), Spread(br, own), eps, own);
  }

  /** The mix the agent plays at a match state: the draw weight of the score, its own
      reply and weight, at the recorded round. */
  ghost function AgentMix(b: Build, bias: BiasMeasure, gs: GameState): Vec
    requires Sound(b.solver) && Valid(gs) && gs.current.Some?
  {
    var c, lam := gs.current.value, WeightNow(b, gs);
    AgentReplyLegal(b.solver, lam);
    RuntimePolicy(b.solver, lam, AgentReply(b.solver, lam), AgentWeight(gs.wonP2, gs.wonP1, bias))
      (MovesOf(c.history), c.p2Ki, c.p1Ki, c.turnNumber + 1)
  }

  /** The distribution exploits the modelled opponent at a match state: the solved mix of
      the current score, the best reply to the model, the adaptive weight. */
  ghost predicate ExploitsAt(b: Build, bias: BiasMeasure, gs: GameState, dist: Vec)
    requires Sound(b.solver) && Valid(gs) && gs.current.Some?
  {
    KiInRange(gs);
    var c, lam := gs.current.value, WeightNow(b, gs);
    var br := Reply(b.solver, lam, c.history, c.p2Ki, c.p1Ki, c.turnNumber + 1);
    && |br| == |AffordableActions(c.p2Ki)|
    && Exploits(dist, StoredMix(b.solver, LamLeaves(lam), c.p2Ki, c.p1Ki, c.turnNumber + 1), Spread(br, c.p2Ki),
                EpsFor(|c.history|, gs.wonP2, gs.wonP1, bias(Model(c.history, c.p1Ki), c.p1Ki)), c.p2Ki)
  }

  /** The action has probability one. */
  ghost predicate Certain(dist: Vec, a: Action) {
    |dist| == 5 && dist[ActionIndex(a)] == 1.0
  }

  /** What is decided where a finish is certain. */
  lemma FinishDecided(b: Build, bias: BiasMeasure, gs: GameState)
    requires Sound(b.solver) && Valid(gs) && gs.current.Some?
    requires Finisher(gs.current.value.p2Ki, gs.current.value.p1Ki).Some?
    ensures var myKi := gs.current.value.p2Ki;
      && KiRange(myKi) && |FinishMix(myKi)| == |AffordableActions(myKi)|
      && var v := Spread(FinishMix(myKi), myKi);
      && LegalVector(v, myKi) && Restrict(v, myKi) == AgentMix(b, bias, gs)
      && forall a :: Affordable(a, myKi) && BeatsAll(a, gs.current.value.p1Ki) ==> Certain(v, a)
  {
    hide Chain, CountWins, ResultOk, Restrict, LegalVector, Spread, RuntimePolicy, AgentReply, AgentWeight, FinishMix,
      Finishes, StoredMix, Final, TableWeight, AffordableActions, Simplex, BeatsAll, EpsFor, Model, Reply, Certain;
    var myKi, oppKi := gs.current.value.p2Ki, gs.current.value.p1Ki;
    AgentAtRound(b.solver, WeightNow(b, gs), gs, bias);
    FinishMixFinishes(myKi, oppKi);
    SpreadLegal(FinishMix(myKi), myKi);
    RestrictSpread(FinishMix(myKi), myKi);
    FinishIsCertain(myKi);
    forall a | Affordable(a, myKi) && BeatsAll(a, oppKi)
      ensures Certain(Spread(FinishMix(myKi), myKi), a)
    {
      FinisherExact(a, myKi, oppKi);
    }
  }

  /** And where none is, from what the pipeline computes. */
  lemma BlendDecided(b: Build, bias: BiasMeasure, gs: GameState, dist: Vec)
    requires Sound(b.solver) && Valid(gs) && gs.current.Some? && BiasOk(bias)
    requires Finisher(gs.current.value.p2Ki, gs.current.value.p1Ki) == None
    requires ExploitsAt(b, bias, gs, dist) && FinalAt(b, bias, gs, dist)
    ensures KiRange(gs.current.value.p2Ki) && LegalVector(dist, gs.current.value.p2Ki)
    ensures Restrict(dist, gs.current.value.p2Ki) == AgentMix(b, bias, gs)
    ensures forall a :: !(Affordable(a, gs.current.value.p2Ki) && BeatsAll(a, gs.current.value.p1Ki))
  {
    hide Chain, CountWins, ResultOk, Restrict, LegalVector, Spread, Final, StoredMix, RuntimeMix, RuntimePolicy,
      AgentReply, AgentWeight, TableWeight, AffordableActions, Simplex, BeatsAll, EpsFor, Model, Reply, Exploits;
    var c, lam := gs.current.value, WeightNow(b, gs);
    KiInRange(gs);
    AgentAtRound(b.solver, lam, gs, bias);
    var measured := bias(Model(c.history, c.p1Ki), c.p1Ki);
    EpsIsWeight(|c.history|, gs.wonP2, gs.wonP1, measured);
    FinalIsRuntimeMix(b.solver, lam, Reply(b.solver, lam, c.history, c.p2Ki, c.p1Ki, c.turnNumber + 1),
                      EpsFor(|c.history|, gs.wonP2, gs.wonP1, measured), c.p2Ki, c.p1Ki, c.turnNumber + 1);
    forall a ensures !(Affordable(a, c.p2Ki) && BeatsAll(a, c.p1Ki)) { FinisherExact(a, c.p2Ki, c.p1Ki); }
  }

  /** The result of the pipeline at a match state. */
  ghost predicate FinalAt(b: Build, bias: BiasMeasure, gs: GameState, dist: Vec)
    requires Sound(b.solver) && Valid(gs) && gs.current.Some?
  {
    KiInRange(gs);
    var c, lam := gs.current.value, WeightNow(b, gs);
    var br := Reply(b.solver, lam, c.history, c.p2Ki, c.p1Ki, c.turnNumber + 1);
    && |br| == |AffordableActions(c.p2Ki)|
    && dist == Final(StoredMix(b.solver, LamLeaves(lam), c.p2Ki, c.p1Ki, c.turnNumber + 1), Spread(br, c.p2Ki),
                     EpsFor(|c.history|, gs.wonP2, gs.wonP1, bias(Model(c.history, c.p1Ki), c.p1Ki)), c.p2Ki)
  }

  datatype DecideError = NoRound

  /** The distribution the next action is drawn from. For every valid match with an
      active round it is exactly the agent's mix, from the table of the current score:
      an action that beats every legal reply for certain, and where there is none, the
      solved mix and the best reply blended by the adaptive weight, with the noise. */
  method Decide(st: Strategy, ghost b: Build, gs: GameState, bias: BiasMeasure) returns (r: Result<Vec, DecideError>)
    requires Sound(b.solver) && Complete(st, b) && TablesFilled(st.tables, b.solver) && Valid(gs) && BiasOk(bias)
    ensures r.Err? <==> gs.current == None
    ensures r.Ok? ==> KiRange(gs.current.value.p2Ki) && LegalVector(r.value, gs.current.value.p2Ki)
    ensures r.Ok? ==> Restrict(r.value, gs.current.value.p2Ki) == AgentMix(b, bias, gs)
    ensures r.Ok? ==> forall a :: Affordable(a, gs.current.value.p2Ki) && BeatsAll(a, gs.current.value.p1Ki) ==>
      Certain(r.value, a)
    ensures r.Ok? && (gs.current.value.p2Ki < 3 || gs.current.value.p1Ki > 0) ==> ExploitsAt(b, bias, gs, r.value)
  {
    hide Restrict, LegalVector, Spread, Final, StoredMix, Reply, EpsFor, Model, AgentMix, FinishMix, Chain, CountWins,
      ResultOk, TableFilled, TableWeight, EntryOf, Complete, AffordableActions, Simplex, Exploits, BeatsAll, Covers,
      MixFor, Worth, DrawWeight, Certain;
    if gs.current == None {
      return Err(NoRound);
    }
    var c := gs.current.value;
    var myKi, oppKi := c.p2Ki, c.p1Ki;
    var turn := if c.turnNumber + 1 < TURN_LIMIT then c.turnNumber + 1 else TURN_LIMIT;
    KiInRange(gs);
    var finisher := GuaranteedFinisher(myKi, oppKi);
    if finisher.Some? {
      FinishDecided(b, bias, gs);
      return Ok(Spread(FinishMix(myKi), myKi));
    }
    ScoreIsPreRound(gs);
    var table, lam := TableFor(st, ScoreOf(gs), b);
    TableOfScore(st, b, ScoreOf(gs), table, lam);
    assert table.sigma[myKi, oppKi, turn - 1] == StoredMix(b.solver, LamLeaves(lam), myKi, oppKi, turn) by {
      StoredThere(table, b.solver, lam, myKi, oppKi, turn);
    }
    var dist := FinalDistribution(table.v, table.sigma, lam, b.solver, myKi, oppKi, turn, c.history, gs, bias);
    BlendDecided(b, bias, gs, dist);
    r := Ok(dist);
  }

  lemma StoredThere(table: RoundTable, s: Solver, lam: real, myKi: int, oppKi: int, turn: int)
    requires Sound(s) && TableFilled(table.v, table.sigma, s, lam)
    requires KiRange(myKi) && KiRange(oppKi) && 1 <= turn <= TURN_LIMIT
    ensures TableSized(table.sigma)
    ensures table.sigma[myKi, oppKi, turn - 1] == StoredMix(s, LamLeaves(lam), myKi, oppKi, turn)
  {
    hide StoredMix, Value;
  }

  lemma FinishIsCertain(myKi: int)
    requires KiRange(myKi) && myKi >= Cost(EnergyWave)
    ensures |FinishMix(myKi)| == |AffordableActions(myKi)|
    ensures Certain(Spread(FinishMix(myKi), myKi), EnergyWave)
  {
    hide AffordableActions;
    PositionOf(EnergyWave, myKi);
    assert ACTION_ORDER[ActionIndex(EnergyWave)] == EnergyWave;
  }

  lemma TableOfScore(st: Strategy, b: Build, k: Score, table: RoundTable, lam: real)
    requires Sound(b.solver) && TablesFilled(st.tables, b.solver) && EntryOf(st, b, k)
    requires lam == TableWeight(b, k) && table == st.tables[lam]
    ensures TableFilled(table.v, table.sigma, b.solver, lam)
  {}

  // ----- the match -----

  /** Drawing every action that way. */
  ghost function AgentPlay(b: Build, bias: BiasMeasure): MatchPolicy
    requires Sound(b.solver)
  {
    (h, gs) => if Valid(gs) && gs.current.Some? then AgentMix(b, bias, gs) else []
  }

  /** What the agent leaves of the solved mix at a match state: (1 - eps)(1 - 0.02 n). */
  function AgentShare(bias: BiasMeasure): MatchShare {
    (h: History, gs: GameState) => if gs.current == None then 1.0 else ShareNow(bias, gs)
  }

  function ShareNow(bias: BiasMeasure, gs: GameState): real
    requires gs.current.Some?
  {
    var c := gs.current.value;
    RuntimeShare(AgentWeight(gs.wonP2, gs.wonP1, bias))(MovesOf(c.history), c.p2Ki, c.p1Ki, c.turnNumber + 1)
  }

  /** The weight of the blend at a match state. */
  function EpsNow(bias: BiasMeasure, gs: GameState): real
    requires gs.current.Some?
  {
    var c := gs.current.value;
    EpsFor(|c.history|, gs.wonP2, gs.wonP1, bias(Model(c.history, ClampKi(c.p1Ki)), ClampKi(c.p1Ki)))
  }

  lemma ShareNowIs(bias: BiasMeasure, gs: GameState)
    requires BiasOk(bias) && Valid(gs) && gs.status == InProgress
    ensures 0.0 <= EpsNow(bias, gs) <= EPS_MAX
    ensures ShareNow(bias, gs) == Times(NoiseShare(gs.current.value.p2Ki), 1.0 - EpsNow(bias, gs))
    ensures 0.135 <= ShareNow(bias, gs) <= 1.0
  {
    hide Chain, CountWins, SumTurns, ResultOk, NoiseShare, Times, EpsFor, Model;
    var c := gs.current.value;
    KiInRange(gs);
    ReplayRound(c.history, c.p1Ki, c.p2Ki);
    var measured := bias(Model(c.history, ClampKi(c.p1Ki)), ClampKi(c.p1Ki));
    assert 0.0 <= measured <= 1.0;
    EpsIsWeight(|c.history|, gs.wonP2, gs.wonP1, measured);
    RuntimeShareRange(EpsNow(bias, gs), c.p2Ki);
    LeastShare(EpsNow(bias, gs));
  }

  lemma AgentKeepsHere(b: Build, bias: BiasMeasure, h: History, gs: GameState)
    requires Sound(b.solver) && BiasOk(bias) && Valid(gs) && gs.status == InProgress
    ensures MixFor(AgentPlay(b, bias)(h, gs), gs.current.value.p2Ki)
    ensures KeepsMatchShareAt(AgentPlay(b, bias), b, AgentShare(bias), h, gs)
    ensures AgentShare(bias)(h, gs) >= 0.135
  {
    hide Chain, CountWins, SumTurns, ResultOk, RuntimeMix, Mix, Covers, Finishes, NoiseShare, Times, TableWeight, Reply,
      EpsFor, Model, RuntimePolicy, AgentReply, AgentWeight, ShareNow, MovesOf, AffordableActions, Simplex;
    var c, lam := gs.current.value, WeightNow(b, gs);
    KiInRange(gs);
    AgentAtRound(b.solver, lam, gs, bias);
    ShareNowIs(bias, gs);
    RuntimeMixKeeps(b.solver, lam, Reply(b.solver, lam, c.history, c.p2Ki, ClampKi(c.p1Ki), c.turnNumber + 1),
                    EpsNow(bias, gs), c.p2Ki, c.p1Ki, c.turnNumber + 1);
  }

  lemma LeastShare(eps: real)
    requires eps <= EPS_MAX
    ensures Times(0.9, 1.0 - eps) >= 0.135
  {}

  lemma AgentKeeps(b: Build, bias: BiasMeasure)
    requires Sound(b.solver) && BiasOk(bias)
    ensures LegalSecond(AgentPlay(b, bias)) && KeepsMatchShare(AgentPlay(b, bias), b, AgentShare(bias))
  {
    hide Valid, AgentPlay, AgentShare, KeepsMatchShareAt, Simplex, AffordableActions;
    forall h: History, gs: GameState | Valid(gs) && gs.status == InProgress
      ensures gs.current.Some? && MixFor(AgentPlay(b, bias)(h, gs), gs.current.value.p2Ki)
      ensures KeepsMatchShareAt(AgentPlay(b, bias), b, AgentShare(bias), h, gs)
    {
      ResultsInPlay(gs);
      AgentKeepsHere(b, bias, h, gs);
    }
  }

  lemma RoundFinished(gs: GameState, other: Action, a: Action)
    requires Valid(gs) && gs.status == InProgress
    requires Affordable(a, gs.current.value.p2Ki) && BeatsAll(a, gs.current.value.p1Ki)
    requires Affordable(other, gs.current.value.p1Ki)
    ensures SubmitTurn(gs, other, a).Ok?
    ensures SubmitTurn(gs, other, a).value.round.Some? && SubmitTurn(gs, other, a).value.round.value.winner == P2
    ensures gs.wonP2 + 1 >= ROUNDS_TO_WIN ==>
      var s := SubmitTurn(gs, other, a).value; s.state.status == Completed && FinalScore(s.state) == 1.0
  {
    hide Chain, CountWins, SumTurns, ResultOk, AffordableActions;
    KiInRange(gs);
    PositionOf(other, gs.current.value.p1Ki);
    assert ImmediateOutcome(a, other) == 1;
    assert Resolve(other, a) == P2WinsRound;
    SubmitKeepsValid(gs, other, a);
  }

  /** Where some action beats every legal reply the agent plays it for certain, and every
      reply loses the opponent the round. */
  lemma AgentTakesFinish(b: Build, bias: BiasMeasure, h: History, gs: GameState, a: Action)
    requires Sound(b.solver) && BiasOk(bias) && Valid(gs) && gs.status == InProgress
    requires Affordable(a, gs.current.value.p2Ki) && BeatsAll(a, gs.current.value.p1Ki)
    ensures gs.current.value.p2Ki >= 0
    ensures AgentPlay(b, bias)(h, gs)
         == Pure(|AffordableActions(gs.current.value.p2Ki)|, Position(a, gs.current.value.p2Ki))
    ensures forall other :: Affordable(other, gs.current.value.p1Ki) ==>
      && SubmitTurn(gs, other, a).Ok? && SubmitTurn(gs, other, a).value.round.Some?
      && SubmitTurn(gs, other, a).value.round.value.winner == P2
  {
    hide Chain, CountWins, SumTurns, ResultOk, AffordableActions, BeatsAll, RuntimePolicy, AgentReply, AgentWeight,
      Reply, EpsFor, Model, TableWeight, SubmitTurn, Simplex;
    KiInRange(gs);
    FinisherExact(a, gs.current.value.p2Ki, gs.current.value.p1Ki);
    AgentAtRound(b.solver, WeightNow(b, gs), gs, bias);
    forall other | Affordable(other, gs.current.value.p1Ki)
      ensures SubmitTurn(gs, other, a).Ok? && SubmitTurn(gs, other, a).value.round.Some?
      ensures SubmitTurn(gs, other, a).value.round.value.winner == P2
    {
      RoundFinished(gs, other, a);
    }
  }

  /** So once the agent has won a round, such a position is a won match: its expected
      score is one, against every opponent. */
  lemma AgentClinches(b: Build, bias: BiasMeasure, opp: MatchPolicy, h: History, gs: GameState, a: Action)
    requires Sound(b.solver) && BiasOk(bias) && LegalFirst(opp) && Valid(gs) && gs.status == InProgress
    requires Affordable(a, gs.current.value.p2Ki) && BeatsAll(a, gs.current.value.p1Ki)
    requires gs.wonP2 + 1 == ROUNDS_TO_WIN
    ensures LegalSecond(AgentPlay(b, bias)) && ExpectedScore(AgentPlay(b, bias), opp, gs, h) == 1.0
  {
    hide AffordableActions, BeatsAll, AgentPlay, SubmitTurn, Simplex, Dot, CountWins, SumTurns, ResultOk, Chain,
      FinalScore;
    KiInRange(gs);
    AgentKeeps(b, bias);
    AgentTakesFinish(b, bias, h, gs, a);
    var row, myKi, oppKi := AgentPlay(b, bias), gs.current.value.p2Ki, gs.current.value.p1Ki;
    var m, y, k := ScoreMatrix(row, opp, gs, h), opp(h, gs), Position(a, myKi);
    PositionOf(a, myKi);
    assert MixFor(y, oppKi);
    forall j | 0 <= j < |y| ensures m[k][j] == 1.0 {
      ActionAt(oppKi, j);
      var other := AffordableActions(oppKi)[j];
      assert m[k][j] == NextScore(row, opp, gs, h, a, other);
      MatchFinished(row, opp, gs, h, other, a);
    }
    CertainRow(m, k, y);
  }

  lemma MatchFinished(row: MatchPolicy, opp: MatchPolicy, gs: GameState, h: History, other: Action, a: Action)
    requires Valid(gs) && gs.status == InProgress && LegalSecond(row) && LegalFirst(opp)
    requires Affordable(a, gs.current.value.p2Ki) && BeatsAll(a, gs.current.value.p1Ki)
    requires Affordable(other, gs.current.value.p1Ki) && gs.wonP2 + 1 == ROUNDS_TO_WIN
    ensures NextScore(row, opp, gs, h, a, other) == 1.0
  {
    hide AffordableActions, BeatsAll, SubmitTurn, Simplex, CountWins, SumTurns, ResultOk, Chain, FinalScore,
      ScoreMatrix, Bilinear;
    RoundFinished(gs, other, a);
    SubmitKeepsValid(gs, other, a);
  }

  lemma CertainRow(m: Mat, k: nat, y: Vec)
    requires Shape(m, |m|, |y|) && k < |m| && Simplex(y) && forall j :: 0 <= j < |y| ==> m[k][j] == 1.0
    ensures Bilinear(Pure(|m|, k), m, y) == 1.0
  {
    hide Sum, Dot;
    DotPure(|m|, k, MatVec(m, y));
    SimplexSum(y);
    WinningRow(m, k, y);
  }

  /** What exploiting costs over a match. Drawn from the decision above at every turn of
      a best-of-three on the engine, with whatever predictability measure, the agent's
      expected score is at least any share of the match guarantee that its own factors
      (1 - eps)(1 - 0.02 n) sustain, against every opponent who may mix and use the
      whole match. */
  lemma AgentMatchBound(cl: Claim, bias: BiasMeasure, opp: MatchPolicy)
    requires SoundClaim(cl) && BiasOk(bias) && LegalFirst(opp)
    requires MatchSustained(AgentPlay(cl.b, bias), cl.share, AgentShare(bias))
    ensures Valid(StartMatch()) && LegalSecond(AgentPlay(cl.b, bias))
    ensures ExpectedScore(AgentPlay(cl.b, bias), opp, StartMatch(), [])
         >= Times(cl.share([], StartMatch()), 0.5 - 60.0 * cl.d - 3.0 * cl.u)
  {
    hide ExpectedScore, AgentPlay, AgentShare, MatchSustained, KeepsMatchShare, Times;
    AgentKeeps(cl.b, bias);
    MatchBound(cl, AgentPlay(cl.b, bias), opp, AgentShare(bias));
  }

  /** One worst factor for every turn that may still come. */
  const WORST: MatchShare := (h, gs) => if TurnsLeft(gs) < 0 then 1.0 else Power(0.135, TurnsLeft(gs))

  lemma WorstSustainedHere(b: Build, bias: BiasMeasure, h: History, gs: GameState, i: nat, j: nat)
    requires Sound(b.solver) && BiasOk(bias) && Valid(gs) && gs.status == InProgress
    requires i < |AffordableActions(gs.current.value.p2Ki)| && j < |AffordableActions(gs.current.value.p1Ki)|
    ensures WORST(h, gs) <= Times(0.135, ShareAfterAt(WORST, gs, h, i, j))
    ensures 0.0 <= WORST(h, gs) <= 1.0 && 0.0 <= ShareAfterAt(WORST, gs, h, i, j) <= 1.0
  {
    hide SubmitTurn, Times, AffordableActions, Chain, CountWins, SumTurns, ResultOk;
    var me, other := AffordableActions(gs.current.value.p2Ki)[i], AffordableActions(gs.current.value.p1Ki)[j];
    var n := TurnsLeft(gs);
    KiInRange(gs);
    PowerFalls(0.135, 0, n - 1);
    PowerFalls(0.135, 0, n);
    var ahead := ShareAfterAt(WORST, gs, h, i, j);
    if SubmitTurn(gs, other, me).Ok? {
      SubmitKeepsValid(gs, other, me);
      var n' := TurnsLeft(SubmitTurn(gs, other, me).value.state);
      PowerFalls(0.135, n', n - 1);
    }
    TimesBoth(0.135, 0.135, Power(0.135, n - 1), ahead);
  }

  lemma WorstSustained(b: Build, bias: BiasMeasure)
    requires Sound(b.solver) && BiasOk(bias)
    ensures MatchSustained(AgentPlay(b, bias), WORST, AgentShare(bias))
  {
    hide Valid, AgentPlay, AgentShare, Times, AffordableActions, ShareAfterAt, FinishesNow, WORST, TurnsLeft,
      KeepsMatchShareAt;
    var row, c := AgentPlay(b, bias), AgentShare(bias);
    forall h: History, gs: GameState | Valid(gs) && gs.status == InProgress
      ensures gs.current.Some? && MatchSustainedAt(row, WORST, c, h, gs)
    {
      ResultsInPlay(gs);
      KiInRange(gs);
      AgentKeepsHere(b, bias, h, gs);
      ActionAt(gs.current.value.p2Ki, 0) by { AffordableCases(gs.current.value.p2Ki); }
      ActionAt(gs.current.value.p1Ki, 0) by { AffordableCases(gs.current.value.p1Ki); }
      WorstSustainedHere(b, bias, h, gs, 0, 0);
      forall i, j | 0 <= i < |AffordableActions(gs.current.value.p2Ki)|
                   && 0 <= j < |AffordableActions(gs.current.value.p1Ki)|
        ensures WORST(h, gs) <= Times(if FinishesNow(row, h, gs) then 1.0 else c(h, gs),
                                      ShareAfterAt(WORST, gs, h, i, j))
      {
        WorstSustainedHere(b, bias, h, gs, i, j);
        var ahead := ShareAfterAt(WORST, gs, h, i, j);
        TimesBoth(0.135, if FinishesNow(row, h, gs) then 1.0 else c(h, gs), ahead, ahead);
      }
    }
  }

  /** Whatever the opponent does, some of the match guarantee is always kept. */
  lemma AgentMatchFloor(b: Build, d: real, u: real, bias: BiasMeasure, opp: MatchPolicy)
    requires Accurate(b.solver, d) && SoundBuild(b, u) && BiasOk(bias) && LegalFirst(opp)
    ensures Valid(StartMatch()) && LegalSecond(AgentPlay(b, bias))
    ensures ExpectedScore(AgentPlay(b, bias), opp, StartMatch(), [])
      >= Times(Power(0.135, 60), 0.5 - 60.0 * d - 3.0 * u)
  {
    hide Accurate, ExpectedScore, AgentPlay, AgentShare, MatchSustained, Times, Power;
    WorstSustained(b, bias);
    AgentMatchBound(Claim(b, d, u, WORST), bias, opp);
  }

  // ----- the greatest share the agent keeps -----

  lemma AgentFactors(mine: int, theirs: int, bias: BiasMeasure)
    requires BiasOk(bias)
    ensures UnitShares(RuntimeShare(AgentWeight(mine, theirs, bias)))
  {
    hide AgentWeight, NoiseShare, Times;
    var eps := AgentWeight(mine, theirs, bias);
    AgentWeightCapped(mine, theirs, bias);
    CapIsUnit(eps, WeightCap(mine, theirs));
    forall h: History, a, b, t | KiRange(a) && KiRange(b) && 1 <= t <= TURN_LIMIT
      ensures UnitShare(RuntimeShare(eps), h, a, b, t)
    {
      assert UnitWeight(eps, h, a, b, t);
      RuntimeShareRange(eps(h, a, b, t), a);
    }
  }

  /** What exploiting costs over a round: the agent keeps, of the stake, the least product
      of its own factors along any way the round can go on. */
  lemma AgentRoundKeeps(s: Solver, lam: real, d: real, mine: int, theirs: int, bias: BiasMeasure,
                        col: Policy, w: Leaves, myKi: int, oppKi: int, turn: int, h: History)
    requires Sound(s) && Accurate(s, d) && Proper(w, lam) && Legal(col) && BiasOk(bias)
    requires KiRange(myKi) && KiRange(oppKi) && 1 <= turn <= TURN_LIMIT
    ensures Legal(AgentReply(s, lam))
    ensures var eps := AgentWeight(mine, theirs, bias);
      var row := RuntimePolicy(s, lam, AgentReply(s, lam), eps);
      && Legal(row)
      && Expected(row, col, w, myKi, oppKi, turn, h)
         >= Discounted(w, Lasts(row, RuntimeShare(eps), h, myKi, oppKi, turn),
                       Value(s, LamLeaves(lam), myKi, oppKi, turn) - (TURN_LIMIT + 1 - turn) as real * d)
  {
    hide Value, Expected, Accurate, RuntimePolicy, Discounted, AgentReply, AgentWeight, Lasts, Sustained, RuntimeShare;
    AgentReplyLegal(s, lam);
    AgentFactors(mine, theirs, bias);
    var eps := AgentWeight(mine, theirs, bias);
    var row := RuntimePolicy(s, lam, AgentReply(s, lam), eps);
    LastingSustained(row, RuntimeShare(eps));
    AgentRoundBound(s, lam, d, mine, theirs, bias, Lasting(row, RuntimeShare(eps)), col, w, myKi, oppKi, turn, h);
  }

  lemma AgentMatchFactors(b: Build, bias: BiasMeasure)
    requires Sound(b.solver) && BiasOk(bias)
    ensures UnitMatchShares(AgentShare(bias))
  {
    hide Valid, AgentPlay, AgentShare;
    forall h: History, gs: GameState | Valid(gs) && gs.status == InProgress
      ensures UnitMatchShare(AgentShare(bias), h, gs)
    {
      AgentKeepsHere(b, bias, h, gs);
    }
  }

  /** And over a match: the least product along any way the match can go on, of the match
      guarantee. No sustained share is greater, so this one is at least 0.135 to the power
      of sixty. */
  lemma AgentMatchKeeps(b: Build, d: real, u: real, bias: BiasMeasure, opp: MatchPolicy)
    requires Accurate(b.solver, d) && SoundBuild(b, u) && BiasOk(bias) && LegalFirst(opp)
    ensures Valid(StartMatch()) && LegalSecond(AgentPlay(b, bias))
    ensures var kept := MatchLasts(AgentPlay(b, bias), AgentShare(bias), [], StartMatch());
      && ExpectedScore(AgentPlay(b, bias), opp, StartMatch(), []) >= Times(kept, 0.5 - 60.0 * d - 3.0 * u)
      && Power(0.135, 60) <= kept <= 1.0
  {
    hide Accurate, ExpectedScore, AgentPlay, AgentShare, MatchSustained, Times, Power, MatchLasts;
    var row, c := AgentPlay(b, bias), AgentShare(bias);
    AgentMatchFactors(b, bias);
    MatchLastingSustained(row, c);
    AgentMatchBound(Claim(b, d, u, MatchLasting(row, c)), bias, opp);
    WorstSustained(b, bias);
    MatchLastingGreatest(row, WORST, c, [], StartMatch());
    MatchLastsInUnit(row, c, [], StartMatch());
  }
}
