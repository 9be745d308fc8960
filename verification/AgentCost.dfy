/** What the agent's own best replies, blended in with its own weights, can cost over a
    round: when no more than documented, and a recorded history where it is more. */
module AgentCost {
  import opened Wrappers
  import opened GameRules
  import opened MatchEngine
  import opened EngineInvariants
  import opened Mirror
  import opened Vectors
  import opened MatrixGame
  import opened ZeroSum
  import opened StageGame
  import opened RoundSolver
  import opened RoundGuarantee
  import opened KeptShares
  import opened OpponentModel
  import opened Exploit
  import opened Blending
  import opened Compounding
  import opened Decision
  import opened LateTurns

  /** The table with the agent's replies blended in, with its adaptive weights. */
  ghost function Exploiting(s: Solver, lam: real, mine: int, theirs: int, bias: BiasMeasure): Policy
    requires Sound(s)
  {
    AgentReplyLegal(s, lam);
    Blended(s, lam, AgentReply(s, lam), AgentWeight(mine, theirs, bias))
  }

  lemma ExploitingKeeps(s: Solver, lam: real, mine: int, theirs: int, bias: BiasMeasure)
    requires Sound(s) && BiasOk(bias)
    ensures UnitWeights(AgentWeight(mine, theirs, bias)) && Legal(Exploiting(s, lam, mine, theirs, bias))
    ensures KeepsShare(Exploiting(s, lam, mine, theirs, bias), s, lam, LeftOf(AgentWeight(mine, theirs, bias)))
    ensures UnitShares(LeftOf(AgentWeight(mine, theirs, bias)))
  {
    hide AgentWeight, AgentReply, Blended, KeepsShare, Legal;
    var eps := AgentWeight(mine, theirs, bias);
    AgentReplyLegal(s, lam);
    AgentWeightCapped(mine, theirs, bias);
    CapIsUnit(eps, WeightCap(mine, theirs));
    BlendedKeeps(s, lam, AgentReply(s, lam), eps);
    forall h: History, a, b, t | KiRange(a) && KiRange(b) && 1 <= t <= TURN_LIMIT
      ensures UnitShare(LeftOf(eps), h, a, b, t)
    {
      assert UnitWeight(eps, h, a, b, t);
    }
  }

  lemma ExploitingLegal(s: Solver, lam: real, mine: int, theirs: int, bias: BiasMeasure)
    requires Sound(s) && BiasOk(bias)
    ensures Legal(Exploiting(s, lam, mine, theirs, bias))
  {
    hide Exploiting, Legal, AgentWeight, KeepsShare;
    ExploitingKeeps(s, lam, mine, theirs, bias);
  }

  /** Exploiting costs no more than eps whenever the solved value times what the agent's
      own weights can give up is at most eps. */
  lemma ExploitingCheap(s: Solver, lam: real, d: real, mine: int, theirs: int, bias: BiasMeasure, eps: real,
                        col: Policy, w: Leaves, myKi: int, oppKi: int, turn: int, h: History)
    requires Sound(s) && Accurate(s, d) && Proper(w, lam) && Legal(col) && BiasOk(bias)
    requires KiRange(myKi) && KiRange(oppKi) && 1 <= turn <= TURN_LIMIT
    requires var row, c := Exploiting(s, lam, mine, theirs, bias), LeftOf(AgentWeight(mine, theirs, bias));
      Times(Value(s, LamLeaves(lam), myKi, oppKi, turn), 1.0 - Lasts(row, c, h, myKi, oppKi, turn)) <= eps
    ensures Legal(Exploiting(s, lam, mine, theirs, bias))
    ensures Expected(Exploiting(s, lam, mine, theirs, bias), col, w, myKi, oppKi, turn, h)
         >= InUnits(w, Value(s, LamLeaves(lam), myKi, oppKi, turn) - (TURN_LIMIT + 1 - turn) as real * d
                       - ExploitabilityBound(eps))
  {
    hide Value, Expected, Accurate, KeepsShare, InUnits, Times, Sustained, Exploiting, AgentWeight, Lasts, LeftOf;
    var row, c := Exploiting(s, lam, mine, theirs, bias), LeftOf(AgentWeight(mine, theirs, bias));
    ExploitingKeeps(s, lam, mine, theirs, bias);
    LastingSustained(row, c);
    CheapEnough(row, s, lam, d, c, Lasting(row, c), eps, col, w, myKi, oppKi, turn, h);
  }

  // ----- a recorded round -----

  /** The engine has recorded this round, the first of a match, and it goes on; and these
      are the opponent's actions so far, newest first, at five and at six ki. */
  ghost predicate Recorded(h: History, own: int, other: int, at5: seq<Action>, at6: seq<Action>) {
    var gs := Play(StartMatch(), SwapMoves(h));
    && gs.status == InProgress && gs.current == Some(RoundState(1, other, own, |h|, TurnsOf(h)))
    && gs.wonP1 == gs.wonP2 == 0
    && KiAtEnd(TurnsOf(h), P1) == other && KiAtEnd(TurnsOf(h), P2) == own
    && NewestFirst(AtKi(TurnsOf(h), 5)) == at5 && NewestFirst(AtKi(TurnsOf(h), 6)) == at6
  }

  lemma NothingRecorded()
    ensures Recorded([], 0, 0, [], [])
  {}

  lemma {:induction false} OneMoreAtKi(past: seq<TurnResult>, t: TurnResult, ki: int)
    ensures NewestFirst(AtKi(past + [t], ki))
         == if t.p1Before == ki then [t.p1Action] + NewestFirst(AtKi(past, ki)) else NewestFirst(AtKi(past, ki))
  {
    assert (past + [t])[..|past|] == past;
    var s := AtKi(past, ki);
    if t.p1Before == ki {
      assert AtKi(past + [t], ki) == s + [t] && (s + [t])[..|s|] == s;
    } else {
      assert AtKi(past + [t], ki) == s + [] == s;
    }
  }

  lemma {:induction false} OneMorePlayed(h: History, me: Action, opp: Action, own: int, other: int)
    requires var gs := Play(StartMatch(), SwapMoves(h));
      gs.status == InProgress && gs.current == Some(RoundState(1, other, own, |h|, TurnsOf(h)))
      && gs.wonP1 == gs.wonP2 == 0
    requires KiAtEnd(TurnsOf(h), P1) == other && KiAtEnd(TurnsOf(h), P2) == own
    requires Affordable(me, own) && Affordable(opp, other) && Resolve(opp, me) !in {P1WinsRound, P2WinsRound}
    requires |h| + 1 < TURN_LIMIT
    ensures var h' := h + [(me, opp)];
      var gs := Play(StartMatch(), SwapMoves(h'));
      && gs.status == InProgress
      && gs.current == Some(RoundState(1, KiAfter(opp, other), KiAfter(me, own), |h'|, TurnsOf(h')))
      && gs.wonP1 == gs.wonP2 == 0
      && KiAtEnd(TurnsOf(h'), P1) == KiAfter(opp, other) && KiAtEnd(TurnsOf(h'), P2) == KiAfter(me, own)
  {
    hide KiAfter, Resolve, TurnsOf, SubmitTurn, Affordable, Play;
    var h' := h + [(me, opp)];
    assert SwapMoves(h') == SwapMoves(h) + [(opp, me)];
    PlayedOn(SwapMoves(h), opp, me);
    OneMoreTurn(h, me, opp);
    NoBlow(Play(StartMatch(), SwapMoves(h)), me, opp, own, other);
  }

  lemma {:induction false} PlayedOn(moves: seq<(Action, Action)>, p1: Action, p2: Action)
    ensures var before := Play(StartMatch(), moves);
      SubmitTurn(before, p1, p2).Ok? ==>
        Play(StartMatch(), moves + [(p1, p2)]) == SubmitTurn(before, p1, p2).value.state
  {
    hide SubmitTurn;
    assert (moves + [(p1, p2)])[..|moves|] == moves;
  }

  /** The engine's step without a blow and before the last turn. */
  lemma NoBlow(gs: GameState, me: Action, opp: Action, own: int, other: int)
    requires gs.status == InProgress && gs.current.Some? && gs.current.value.roundNumber == 1
    requires gs.current.value.p1Ki == other && gs.current.value.p2Ki == own
      && gs.current.value.turnNumber + 1 < TURN_LIMIT
    requires Affordable(me, own) && Affordable(opp, other) && Resolve(opp, me) !in {P1WinsRound, P2WinsRound}
    ensures SubmitTurn(gs, opp, me).Ok?
    ensures var r := gs.current.value;
      var t := ResolveTurn(r.turnNumber + 1, opp, me, other, own);
      SubmitTurn(gs, opp, me).value.state
      == gs.(current := Some(RoundState(1, KiAfter(opp, other), KiAfter(me, own), r.turnNumber + 1, r.history + [t])))
  {
    hide KiAfter, Resolve, Affordable;
  }

  /** One more turn with which the round goes on. */
  lemma {:induction false} Turns(h: History, me: Action, opp: Action, own: int, other: int, at5: seq<Action>,
                                 at6: seq<Action>, at5': seq<Action>, at6': seq<Action>) returns (h': History)
    requires Recorded(h, own, other, at5, at6) && Affordable(me, own) && Affordable(opp, other)
    requires Resolve(opp, me) !in {P1WinsRound, P2WinsRound} && |h| + 1 < TURN_LIMIT
    requires at5' == (if other == 5 then [opp] + at5 else at5) && at6' == (if other == 6 then [opp] + at6 else at6)
    ensures h' == h + [(me, opp)] && Recorded(h', KiAfter(me, own), KiAfter(opp, other), at5', at6')
  {
    hide KiAfter, Resolve, TurnsOf, Play, AtKi, NewestFirst;
    h' := h + [(me, opp)];
    OneMoreTurn(h, me, opp);
    OneMorePlayed(h, me, opp, own, other);
    var t := ResolveTurn(|h| + 1, opp, me, other, own);
    OneMoreAtKi(TurnsOf(h), t, 5);
    OneMoreAtKi(TurnsOf(h), t, 6);
  }

  /** Eighteen turns without a blow. The agent charges to eight ki and then blocks; the
      opponent waits, charges, and at five and six ki charges, teleports and blocks. */
  lemma Rehearsal() returns (h: History)
    ensures |h| == 18 && Recorded(h, 8, 6, [Charge, Teleport, Teleport, Charge], [Block, Teleport])
  {
    hide Recorded;
    h := [];
    NothingRecorded();
    for i := 0 to 5
      invariant |h| == i && Recorded(h, i, 0, [], [])
    {
      h := Turns(h, Charge, Block, i, 0, [], [], [], []);
    }
    for i := 0 to 3
      invariant |h| == 5 + i && Recorded(h, 5 + i, i, [], [])
    {
      h := Turns(h, Charge, Charge, 5 + i, i, [], [], [], []);
    }
    for i := 0 to 2
      invariant |h| == 8 + i && Recorded(h, 8, 3 + i, [], [])
    {
      h := Turns(h, Block, Charge, 8, 3 + i, [], [], [], []);
    }
    h := Turns(h, Block, Charge, 8, 5, [], [],
               [Charge], []);
    h := Turns(h, Block, Teleport, 8, 6, [Charge], [],
               [Charge], [Teleport]);
    h := Turns(h, Block, Teleport, 8, 5, [Charge], [Teleport],
               [Teleport, Charge], [Teleport]);
    h := Turns(h, Block, Charge, 8, 4, [Teleport, Charge], [Teleport],
               [Teleport, Charge], [Teleport]);
    h := Turns(h, Block, Teleport, 8, 5, [Teleport, Charge], [Teleport],
               [Teleport, Teleport, Charge], [Teleport]);
    h := Turns(h, Block, Charge, 8, 4, [Teleport, Teleport, Charge], [Teleport],
               [Teleport, Teleport, Charge], [Teleport]);
    h := Turns(h, Block, Charge, 8, 5, [Teleport, Teleport, Charge], [Teleport],
               [Charge, Teleport, Teleport, Charge], [Teleport]);
    h := Turns(h, Block, Block, 8, 6, [Charge, Teleport, Teleport, Charge], [Teleport],
               [Charge, Teleport, Teleport, Charge], [Block, Teleport]);
  }

  // ----- what the agent makes of it -----

  /** The model of an opponent seen at least twice at the present ki. */
  function Conditional(same: seq<Action>, ki: int): (o: Vec)
    ensures |o| == |AffordableActions(ki)|
  {
    Add(Scale(TRUST, Signal(same, ki)), Scale(1.0 - TRUST, Prior(ki)))
  }

  lemma {:induction false} ObservedHere(turns: seq<TurnResult>, ki: int, same: seq<Action>)
    requires NewestFirst(AtKi(turns, ki)) == same && |same| >= 2
    ensures Observed(turns, ki) == Signal(same, ki)
  {
    hide Signal, NewestFirst, AtKi;
    var observed, signal := Observed(turns, ki), Signal(same, ki);
    assert Confidence(|same|) == 1.0;
    assert forall i :: 0 <= i < |signal| ==> observed[i] == signal[i];
  }

  lemma {:induction false} ConditionalMass(same: seq<Action>, ki: int)
    requires 3 <= ki
    ensures |Conditional(same, ki)| == |Signal(same, ki)| == 5 && Sum(Conditional(same, ki)) == 1.0
    ensures forall i :: 0 <= i < 5 ==> Conditional(same, ki)[i] == TRUST * Signal(same, ki)[i] + 0.06
  {
    hide Signal, Sum;
    AffordableCases(ki);
    assert AllAffordable(same, ki);
    SignalMass(same, ki);
    PriorMix(ki);
    SumAdd(Scale(TRUST, Signal(same, ki)), Scale(1.0 - TRUST, Prior(ki)));
    SumScale(TRUST, Signal(same, ki));
    SumScale(1.0 - TRUST, Prior(ki));
  }

  lemma {:induction false} ModelHere(turns: seq<TurnResult>, ki: int, same: seq<Action>)
    requires 3 <= ki && NewestFirst(AtKi(turns, ki)) == same && |same| >= 2
    ensures Model(turns, ki) == Conditional(same, ki)
    ensures |Model(turns, ki)| == 5
    ensures forall i :: 0 <= i < 5 ==> Model(turns, ki)[i] == TRUST * Signal(same, ki)[i] + 0.06
  {
    hide Signal, Sum, Observed, Prior, Scale, NewestFirst, AtKi, AffordableActions;
    ObservedHere(turns, ki, same);
    ConditionalMass(same, ki);
    assert turns != [] by { NothingAtKi(ki); }
    assert Weights(turns, ki) == Conditional(same, ki);
    ScaleByOne(Conditional(same, ki));
  }

  lemma NothingAtKi(ki: int)
    ensures NewestFirst(AtKi([], ki)) == []
  {}

  const AT_SIX := [Block, Teleport]
  const AT_FIVE := [Charge, Teleport, Teleport, Charge]

  lemma SixSignal(ki: int)
    requires 3 <= ki
    ensures Signal(AT_SIX, ki) == [0.0, 5.0 / 9.0, 0.0, 0.0, 4.0 / 9.0]
  {
    AffordableCases(ki);
    assert AT_SIX[..1] == [Block] && [Block][..0] == [];
    assert Decay(0) == 1.0 && Decay(1) == 0.8;
    assert Mass([Block]) == 1.0 && Mass(AT_SIX) == 1.8;
    forall a ensures Frequency(AT_SIX, a) == if a == Block then 1.0 else if a == Teleport then 0.8 else 0.0 {
      assert Frequency([Block], a) == if a == Block then 1.0 else 0.0;
    }
    assert 1.0 / 1.8 * 1.0 == 5.0 / 9.0 && 1.0 / 1.8 * 0.8 == 4.0 / 9.0;
  }

  lemma FiveFrequency(a: Action)
    ensures Mass(AT_FIVE) == 2.952
    ensures Frequency(AT_FIVE, a) == if a == Charge then 1.512 else if a == Teleport then 1.44 else 0.0
  {
    var one, two, three := [Charge], [Charge, Teleport], [Charge, Teleport, Teleport];
    assert AT_FIVE[..3] == three && three[..2] == two && two[..1] == one && one[..0] == [];
    assert Decay(0) == 1.0 && Decay(1) == 0.8 && Decay(2) == 0.64 && Decay(3) == 0.512;
    assert Mass(one) == 1.0 && Mass(two) == 1.8 && Mass(three) == 2.44;
    assert Frequency(one, a) == if a == Charge then 1.0 else 0.0;
    assert Frequency(two, a) == Frequency(one, a) + if a == Teleport then 0.8 else 0.0;
    assert Frequency(three, a) == Frequency(two, a) + if a == Teleport then 0.64 else 0.0;
  }

  lemma FiveSignal(ki: int)
    requires 3 <= ki
    ensures var f := Signal(AT_FIVE, ki);
      && |f| == 5 && f[0] == 21.0 / 41.0 && f[4] == 20.0 / 41.0 && f[1] == f[2] == f[3] == 0.0
  {
    AffordableCases(ki);
    FiveFrequency(Charge);
    FiveFrequency(Teleport);
    FiveFrequency(Block);
    FiveFrequency(Attack);
    FiveFrequency(EnergyWave);
    hide Frequency, Mass;
    assert 1.0 / 2.952 * 1.512 == 21.0 / 41.0 && 1.0 / 2.952 * 1.44 == 20.0 / 41.0;
  }

  /** The best reply, when some actions earn the most and the others clearly less. */
  lemma BestMixIs(u: Vec, marks: Vec, top: real, n: real)
    requires |u| == |marks| == 5 && 1.0 in marks && Sum(marks) == n > 0.0
    requires forall i :: 0 <= i < 5 ==> (marks[i] == 1.0 && u[i] == top) || (marks[i] == 0.0 && u[i] < top - TIE)
    ensures BestMix(u) == Scale(1.0 / n, marks)
  {
    hide Sum;
    var k :| 0 <= k < 5 && marks[k] == 1.0;
    assert u[k] == top && Max(u) == top;
    assert Near(u) == marks;
  }

  lemma {:induction false} ReplyIs(s: Solver, turns: seq<TurnResult>, own: int, other: int, t: int, a: Mat, br: Vec)
    requires 3 <= own && 3 <= other <= KI_CAP && Shape(a, 5, 5)
      && StageMatrix(own, other, t, HALF, Values(s, HALF)) == a
    requires |Model(turns, other)| == 5 && BestMix(MatVec(a, Model(turns, other))) == br
    ensures Reply(s, 0.5, turns, own, other, t) == br
  {
    hide Model, BestMix, StageMatrix, Values;
    AffordableCases(own);
    AffordableCases(other);
  }

  /** At eight ki against six the agent's best reply is to charge. */
  lemma {:induction false} ReplyBefore(s: Solver, turns: seq<TurnResult>)
    requires Accurate(s, 0.0) && NewestFirst(AtKi(turns, 6)) == AT_SIX
    ensures Reply(s, 0.5, turns, 8, 6, 19) == [1.0, 0.0, 0.0, 0.0, 0.0]
  {
    hide Model, Value, Accurate, Signal, StageMatrix, Values, NewestFirst, AtKi, Sum, MatVec, BestMix, Conditional,
      Reply, AffordableActions;
    AffordableCases(8);
    AffordableCases(6);
    BeforeStage(s);
    ModelHere(turns, 6, AT_SIX);
    SixSignal(6);
    var probs := Model(turns, 6);
    assert probs[1] == 0.7 * (5.0 / 9.0) + 0.06 && probs[4] == 0.7 * (4.0 / 9.0) + 0.06;
    assert probs[0] == probs[2] == probs[3] == 0.06;
    var u, marks := MatVec(BEFORE, probs), [1.0, 0.0, 0.0, 0.0, 0.0];
    BeforeEarnings(u, probs);
    Sum5(marks);
    BestMixIs(u, marks, u[0], 1.0);
    ReplyIs(s, turns, 8, 6, 19, BEFORE, [1.0, 0.0, 0.0, 0.0, 0.0]);
  }

  lemma BeforeEarnings(u: Vec, probs: Vec)
    requires |probs| == 5 && Shape(BEFORE, 5, 5) && u == MatVec(BEFORE, probs)
    requires probs[0] == probs[2] == probs[3] == 0.06
    requires probs[1] == 0.7 * (5.0 / 9.0) + 0.06 && probs[4] == 0.7 * (4.0 / 9.0) + 0.06
    ensures |u| == 5 && forall i :: 1 <= i < 5 ==> u[i] < u[0] - TIE
  {
    hide Dot;
    Row5Is(BEFORE, probs, 0);
    Row5Is(BEFORE, probs, 1);
    Row5Is(BEFORE, probs, 2);
    Row5Is(BEFORE, probs, 3);
    Row5Is(BEFORE, probs, 4);
  }

  /** At seven ki against five, with one turn to go, it is to block or to attack. */
  lemma {:induction false} ReplyLast(s: Solver, turns: seq<TurnResult>)
    requires NewestFirst(AtKi(turns, 5)) == AT_FIVE
    ensures Reply(s, 0.5, turns, 7, 5, 20) == [0.0, 0.5, 0.5, 0.0, 0.0]
  {
    hide Model, Value, Signal, StageMatrix, Values, NewestFirst, AtKi, Sum, MatVec, BestMix, Conditional, LastMatrix,
      Reply, AffordableActions;
    AffordableCases(7);
    AffordableCases(5);
    LastStage(7, 5, Values(s, HALF));
    ModelHere(turns, 5, AT_FIVE);
    FiveSignal(5);
    var probs := Model(turns, 5);
    var u, marks := MatVec(LastMatrix(2), probs), [0.0, 1.0, 1.0, 0.0, 0.0];
    LastEarnings(u, probs);
    Sum5(marks);
    BestMixIs(u, marks, u[1], 2.0);
    assert Scale(1.0 / 2.0, marks) == [0.0, 0.5, 0.5, 0.0, 0.0];
    ReplyIs(s, turns, 7, 5, 20, LastMatrix(2), [0.0, 0.5, 0.5, 0.0, 0.0]);
  }

  lemma LastEarnings(u: Vec, probs: Vec)
    requires |probs| == 5 && u == MatVec(LastMatrix(2), probs)
    requires probs[1] == probs[2] == probs[3] == 0.06
    requires probs[0] == 0.7 * (21.0 / 41.0) + 0.06 && probs[4] == 0.7 * (20.0 / 41.0) + 0.06
    ensures |u| == 5 && u[1] == u[2] && forall i :: i in {0, 3, 4} ==> u[i] < u[1] - TIE
  {
    hide Dot;
    var m := LastMatrix(2);
    Row5Is(m, probs, 0);
    Row5Is(m, probs, 1);
    Row5Is(m, probs, 2);
    Row5Is(m, probs, 3);
    Row5Is(m, probs, 4);
  }

  // ----- an opponent who sees it coming -----

  function StrikeIndex(own: int, turn: int): nat {
    if turn < TURN_LIMIT && own >= Cost(Attack) then Position(Attack, own)
    else if turn >= TURN_LIMIT && own >= Cost(EnergyWave) then Position(EnergyWave, own)
    else 0
  }

  /** Attacks, and waves at the last turn. */
  function Striker(): Policy {
    (h, own, other, t) => Pure(|AffordableActions(own)|, StrikeIndex(own, t))
  }

  lemma StrikerLegal()
    ensures Legal(Striker())
  {
    forall h: History, own, other, t | KiRange(own) ensures MixFor(Striker()(h, own, other, t), own) {
      AffordableCases(own);
      var n := |AffordableActions(own)|;
      DotPure(n, StrikeIndex(own, t), Const(n, 0.0));
    }
  }

  lemma StrikerHere(h: History, own: int, other: int, turn: int)
    requires 3 <= own
    ensures Striker()(h, own, other, turn) == Pure(5, if turn < TURN_LIMIT then 2 else 3)
    ensures |Pure(5, 2)| == |Pure(5, 3)| == 5
  {
    AffordableCases(own);
  }

  /** The weight with which the agent replies, given what it thinks of the opponent. */
  function ReplyWeight(turns: nat, mine: int, theirs: int, bias: BiasMeasure, same: seq<Action>, ki: int): real {
    EpsFor(turns, mine, theirs, bias(Conditional(same, ki), ki))
  }

  /** What blending earns against one column. */
  lemma BlendedColumn(x: Vec, br: Vec, e: real, m: Mat, j: nat)
    requires |x| == |br| == 5 && Shape(m, 5, 5) && j < 5
    ensures Bilinear(Blend(x, br, e), m, Pure(5, j))
         == Times(1.0 - e, Column5(x, m, j)) + Times(e, Column5(br, m, j))
  {
    hide Dot, Blend, Times;
    var u, col := MatVec(m, Pure(5, j)), Column(m, j);
    forall i | 0 <= i < 5 ensures u[i] == col[i] { AgainstColumn(m, 5, j, i); }
    assert u == col;
    BlendEarns(x, br, u, e);
    ColumnDot(x, m, j);
    ColumnDot(br, m, j);
  }

  lemma ColumnDot(x: Vec, m: Mat, j: nat)
    requires |x| == 5 && Shape(m, 5, 5) && j < 5
    ensures |Column(m, j)| == 5 && Dot(x, Column(m, j)) == Column5(x, m, j)
  {
    hide Dot;
    Dot5(x, Column(m, j));
  }

  lemma {:induction false} ExploitingHere(s: Solver, mine: int, theirs: int, bias: BiasMeasure, h: History, own: int,
                                          other: int, t: int)
    requires Sound(s) && 3 <= own <= 9 && KiRange(other) && 1 <= t <= TURN_LIMIT && |h| == t - 1
    ensures Legal(AgentReply(s, 0.5))
    ensures |Reply(s, 0.5, TurnsOf(h), own, other, t)| == |Mix(s, HALF, own, other, t)| == 5
    ensures Exploiting(s, 0.5, mine, theirs, bias)(h, own, other, t)
         == Blend(Mix(s, HALF, own, other, t), Reply(s, 0.5, TurnsOf(h), own, other, t),
                  EpsFor(|h|, mine, theirs, bias(Model(TurnsOf(h), other), other)))
  {
    hide Mix, Reply, Model, EpsFor, Blend, Legal;
    AgentReplyLegal(s, 0.5);
    TableAt(s, 0.5, h, own, other, t);
    AffordableCases(own);
    MixesAt(AgentReply(s, 0.5), h, own, other, t);
    assert ClampKi(other) == other;
    var br := AgentReply(s, 0.5)(h, own, other, t);
    assert br == Reply(s, 0.5, TurnsOf(h), own, other, t);
    var e := AgentWeight(mine, theirs, bias)(h, own, other, t);
    assert e == EpsFor(|h|, mine, theirs, bias(Model(TurnsOf(h), other), other));
    assert TablePolicy(s, 0.5)(h, own, other, t) == Mix(s, HALF, own, other, t);
  }

  /** What a blended mix is worth against one action for certain. */
  lemma {:induction false} BlendAgainst(row: Policy, col: Policy, own: int, other: int, t: int, h: History,
                                        x: Vec, br: Vec, e: real, j: nat)
    requires Legal(row) && Legal(col) && 3 <= own <= KI_CAP && 3 <= other <= KI_CAP && |x| == |br| == 5 && j < 5
    requires row(h, own, other, t) == Blend(x, br, e) && col(h, other, own, t) == Pure(5, j)
    ensures var m := PlayMatrix(row, col, HALF, own, other, t, h);
      && Shape(m, 5, 5)
      && Expected(row, col, HALF, own, other, t, h)
         == Times(1.0 - e, Column5(x, m, j)) + Times(e, Column5(br, m, j))
  {
    hide Legal, PlayMatrix, Expected, Blend, Pure, Times, Column5, Bilinear, AffordableActions;
    AffordableCases(own);
    AffordableCases(other);
    BlendedColumn(x, br, e, PlayMatrix(row, col, HALF, own, other, t, h), j);
    ExpectedHere(row, col, HALF, own, other, t, h);
  }

  /** At the last turn, at seven ki against five. */
  lemma {:induction false} LastStrike(s: Solver, mine: int, theirs: int, bias: BiasMeasure, h: History)
    requires Accurate(s, 0.0) && Sound(s) && BiasOk(bias) && |h| == 19 && NewestFirst(AtKi(TurnsOf(h), 5)) == AT_FIVE
    ensures Legal(Exploiting(s, 0.5, mine, theirs, bias)) && Legal(Striker())
    ensures Expected(Exploiting(s, 0.5, mine, theirs, bias), Striker(), HALF, 7, 5, 20, h)
         == 0.8 * (1.0 - ReplyWeight(19, mine, theirs, bias, AT_FIVE, 5))
  {
    hide Mix, Blend, Legal, Exploiting, Expected, PlayMatrix, Bilinear, AtKi, NewestFirst, Accurate, Striker, Simplex,
      Pure, TurnsOf, ReplyWeight, Column5, Times;
    var row, col := Exploiting(s, 0.5, mine, theirs, bias), Striker();
    ExploitingLegal(s, 0.5, mine, theirs, bias);
    StrikerLegal();
    ExploitingLast(s, mine, theirs, bias, h);
    LastMix(s);
    StrikerHere(h, 5, 7, 20);
    StruckLast(row, col, h, Mix(s, HALF, 7, 5, 20), [0.0, 0.5, 0.5, 0.0, 0.0],
               ReplyWeight(19, mine, theirs, bias, AT_FIVE, 5));
  }

  lemma {:induction false} StruckLast(row: Policy, col: Policy, h: History, x: Vec, br: Vec, e: real)
    requires Legal(row) && Legal(col) && |x| == |br| == 5 && x[3] + x[4] == 0.8 && br[3] + br[4] == 0.0
    requires row(h, 7, 5, 20) == Blend(x, br, e) && col(h, 5, 7, 20) == Pure(5, 3)
    ensures Expected(row, col, HALF, 7, 5, 20, h) == 0.8 * (1.0 - e)
  {
    hide Blend, Legal, Expected, PlayMatrix, Pure, Column5, Times;
    LastStruck(row, col, h);
    var m := PlayMatrix(row, col, HALF, 7, 5, 20, h);
    ColumnOfTwo(x, m);
    ColumnOfTwo(br, m);
    BlendAgainst(row, col, 7, 5, 20, h, x, br, e, 3);
    TimesZero(e);
    EightTenths(e);
  }

  lemma EightTenths(e: real)
    ensures Times(1.0 - e, 0.8) == 0.8 * (1.0 - e)
  {}

  /** The agent blends blocking and attacking into the solved mix. */
  lemma {:induction false} ExploitingLast(s: Solver, mine: int, theirs: int, bias: BiasMeasure, h: History)
    requires Sound(s) && BiasOk(bias) && |h| == 19 && NewestFirst(AtKi(TurnsOf(h), 5)) == AT_FIVE
    ensures |Mix(s, HALF, 7, 5, 20)| == 5
    ensures Exploiting(s, 0.5, mine, theirs, bias)(h, 7, 5, 20)
         == Blend(Mix(s, HALF, 7, 5, 20), [0.0, 0.5, 0.5, 0.0, 0.0], ReplyWeight(19, mine, theirs, bias, AT_FIVE, 5))
  {
    hide Mix, Reply, Model, EpsFor, Blend, Legal, Exploiting, Conditional, Signal, AtKi, NewestFirst, TurnsOf;
    ExploitingHere(s, mine, theirs, bias, h, 7, 5, 20);
    ReplyLast(s, TurnsOf(h));
    ModelHere(TurnsOf(h), 5, AT_FIVE);
  }

  lemma {:induction false} LastStruck(row: Policy, col: Policy, h: History)
    requires Legal(row) && Legal(col)
    ensures var m := PlayMatrix(row, col, HALF, 7, 5, 20, h);
      Shape(m, 5, 5) && forall i :: 0 <= i < 5 ==> m[i][3] == if i >= 3 then 1.0 else 0.0
  {
    hide PlayMatrix, Legal, StagePayoff, LastMatrix, AffordableActions;
    AffordableCases(7);
    AffordableCases(5);
    var m, f: ValueFn := PlayMatrix(row, col, HALF, 7, 5, 20, h), (_, _, _) => 0.0;
    LastStage(7, 5, f);
    forall i | 0 <= i < 5 ensures m[i][3] == if i >= 3 then 1.0 else 0.0 {
      LastEntry(row, col, HALF, 7, 5, h, i, 3);
      assert m[i][3] == StageMatrix(7, 5, 20, HALF, f)[i][3];
      WaveEntry(i);
    }
  }

  lemma ColumnOfTwo(x: Vec, m: Mat)
    requires |x| == 5 && Shape(m, 5, 5) && forall i :: 0 <= i < 5 ==> m[i][3] == if i >= 3 then 1.0 else 0.0
    ensures Column5(x, m, 3) == x[3] + x[4]
  {
    assert m[0][3] == 0.0 && m[1][3] == 0.0 && m[2][3] == 0.0 && m[3][3] == 1.0 && m[4][3] == 1.0;
  }

  /** And the turn before, at eight against six. */
  lemma {:induction false} BothStrikes(s: Solver, mine: int, theirs: int, bias: BiasMeasure, h: History)
    requires Accurate(s, 0.0) && Sound(s) && BiasOk(bias) && |h| == 18 && Recorded(h, 8, 6, AT_FIVE, AT_SIX)
    ensures Legal(Exploiting(s, 0.5, mine, theirs, bias)) && Legal(Striker())
    ensures var e1 := ReplyWeight(18, mine, theirs, bias, AT_SIX, 6);
      var e2 := ReplyWeight(19, mine, theirs, bias, AT_FIVE, 5);
      Expected(Exploiting(s, 0.5, mine, theirs, bias), Striker(), HALF, 8, 6, 19, h)
      == Times(1.0 - e1, 1.0 / 3.0 + 0.4 * (1.0 - e2))
  {
    hide Mix, Blend, Legal, Exploiting, Expected, PlayMatrix, Bilinear, Accurate, Striker, Pure, TurnsOf, Recorded,
      Times,
      ReplyWeight, Column5;
    var row, col := Exploiting(s, 0.5, mine, theirs, bias), Striker();
    ExploitingBefore(s, mine, theirs, bias, h);
    StruckColumn(s, mine, theirs, bias, h);
    var m, e := PlayMatrix(row, col, HALF, 8, 6, 19, h), ReplyWeight(18, mine, theirs, bias, AT_SIX, 6);
    StrikerHere(h, 6, 8, 19);
    BlendAgainst(row, col, 8, 6, 19, h, BEFORE_ROW, [1.0, 0.0, 0.0, 0.0, 0.0], e, 2);
    TimesZero(e);
  }

  /** The agent blends charging into the solved mix. */
  lemma {:induction false} ExploitingBefore(s: Solver, mine: int, theirs: int, bias: BiasMeasure, h: History)
    requires Accurate(s, 0.0) && Sound(s) && BiasOk(bias) && |h| == 18 && Recorded(h, 8, 6, AT_FIVE, AT_SIX)
    ensures Legal(Exploiting(s, 0.5, mine, theirs, bias)) && |BEFORE_ROW| == 5
    ensures Exploiting(s, 0.5, mine, theirs, bias)(h, 8, 6, 19)
         == Blend(BEFORE_ROW, [1.0, 0.0, 0.0, 0.0, 0.0], ReplyWeight(18, mine, theirs, bias, AT_SIX, 6))
  {
    hide Mix, Reply, Model, EpsFor, Blend, Legal, Exploiting, Conditional, Signal, AtKi, NewestFirst, Accurate, TurnsOf,
      Play;
    ExploitingLegal(s, 0.5, mine, theirs, bias);
    ExploitingHere(s, mine, theirs, bias, h, 8, 6, 19);
    ReplyBefore(s, TurnsOf(h));
    ModelHere(TurnsOf(h), 6, AT_SIX);
    TurnBefore(s);
  }

  /** What the attack leaves of the stage. */
  lemma {:induction false} StruckColumn(s: Solver, mine: int, theirs: int, bias: BiasMeasure, h: History)
    requires Accurate(s, 0.0) && Sound(s) && BiasOk(bias) && |h| == 18 && Recorded(h, 8, 6, AT_FIVE, AT_SIX)
    ensures Legal(Exploiting(s, 0.5, mine, theirs, bias)) && Legal(Striker())
    ensures var m := PlayMatrix(Exploiting(s, 0.5, mine, theirs, bias), Striker(), HALF, 8, 6, 19, h);
      var e2 := ReplyWeight(19, mine, theirs, bias, AT_FIVE, 5);
      && Shape(m, 5, 5) && Column5(BEFORE_ROW, m, 2) == 1.0 / 3.0 + 0.4 * (1.0 - e2)
      && Column5([1.0, 0.0, 0.0, 0.0, 0.0], m, 2) == 0.0
  {
    hide Legal, Exploiting, Expected, PlayMatrix, Accurate, Striker, TurnsOf, Recorded, ReplyWeight, Column5;
    var row, col := Exploiting(s, 0.5, mine, theirs, bias), Striker();
    ExploitingLegal(s, 0.5, mine, theirs, bias);
    StrikerLegal();
    AffordableCases(8);
    AffordableCases(6);
    Struck(s, mine, theirs, bias, h, Attack);
    Struck(s, mine, theirs, bias, h, Teleport);
    var m := PlayMatrix(row, col, HALF, 8, 6, 19, h);
    var later := 0.8 * (1.0 - ReplyWeight(19, mine, theirs, bias, AT_FIVE, 5));
    EarlierEntry(row, col, HALF, 8, 6, h, 0, 2);
    EarlierEntry(row, col, HALF, 8, 6, h, 2, 2);
    EarlierEntry(row, col, HALF, 8, 6, h, 3, 2);
    EarlierEntry(row, col, HALF, 8, 6, h, 4, 2);
    StruckSum(m, later);
  }

  lemma StruckSum(m: Mat, later: real)
    requires Shape(m, 5, 5) && m[0][2] == 0.0 && m[3][2] == 1.0 && m[2][2] == later && m[4][2] == later
    ensures Column5(BEFORE_ROW, m, 2) == 1.0 / 3.0 + 0.5 * later && Column5([1.0, 0.0, 0.0, 0.0, 0.0], m, 2) == 0.0
  {}

  /** After an attack that was matched or dodged. */
  lemma {:induction false} Struck(s: Solver, mine: int, theirs: int, bias: BiasMeasure, h: History, me: Action)
    requires Accurate(s, 0.0) && Sound(s) && BiasOk(bias) && |h| == 18 && Recorded(h, 8, 6, AT_FIVE, AT_SIX)
    requires me in {Attack, Teleport}
    ensures Legal(Exploiting(s, 0.5, mine, theirs, bias)) && Legal(Striker())
    ensures Expected(Exploiting(s, 0.5, mine, theirs, bias), Striker(), HALF, 7, 5, 20, h + [(me, Attack)])
         == 0.8 * (1.0 - ReplyWeight(19, mine, theirs, bias, AT_FIVE, 5))
  {
    hide EpsFor, Legal, Exploiting, Expected, Conditional, AtKi, NewestFirst, Accurate, Striker, TurnsOf, Play;
    OneMoreTurn(h, me, Attack);
    OneMoreAtKi(TurnsOf(h), ResolveTurn(19, Attack, me, 6, 8), 5);
    LastStrike(s, mine, theirs, bias, h + [(me, Attack)]);
  }

  // ----- the cost -----

  /** There is a round of eighteen turns, recorded by the engine, after which exploiting
      costs exactly 11/15 e1 + 2/5 e2 (1 - e1): the agent's weights e1 and e2 at the last
      two turns, its own best replies, whatever the predictability measure. */
  lemma {:induction false} CostOfExploiting(s: Solver, mine: int, theirs: int, bias: BiasMeasure) returns (h: History)
    requires Accurate(s, 0.0) && Sound(s) && BiasOk(bias)
    ensures |h| == 18 && Recorded(h, 8, 6, AT_FIVE, AT_SIX)
    ensures Legal(Exploiting(s, 0.5, mine, theirs, bias)) && Legal(Striker())
    ensures var e1 := ReplyWeight(18, mine, theirs, bias, AT_SIX, 6);
      var e2 := ReplyWeight(19, mine, theirs, bias, AT_FIVE, 5);
      Value(s, HALF, 8, 6, 19) - Expected(Exploiting(s, 0.5, mine, theirs, bias), Striker(), HALF, 8, 6, 19, h)
      == 11.0 / 15.0 * e1 + 0.4 * Times(e2, 1.0 - e1)
  {
    hide Value, Expected, Accurate, Exploiting, Striker, Legal, ReplyWeight, Recorded;
    h := Rehearsal();
    BothStrikes(s, mine, theirs, bias, h);
    TurnBefore(s);
    CostSplit(ReplyWeight(18, mine, theirs, bias, AT_SIX, 6), ReplyWeight(19, mine, theirs, bias, AT_FIVE, 5));
  }

  lemma CostSplit(e1: real, e2: real)
    ensures 11.0 / 15.0 - Times(1.0 - e1, 1.0 / 3.0 + 0.4 * (1.0 - e2)) == 11.0 / 15.0 * e1 + 0.4 * Times(e2, 1.0 - e1)
  {}

  /** So there it costs more than either weight, the documented bound of both turns, if
      and only if the two weights are positive and near enough to each other; if they are
      equal, if and only if they are positive and below one third. */
  lemma ExploitingCostsMore(s: Solver, mine: int, theirs: int, bias: BiasMeasure) returns (h: History)
    requires Accurate(s, 0.0) && Sound(s) && BiasOk(bias)
    ensures |h| == 18 && Recorded(h, 8, 6, AT_FIVE, AT_SIX)
    ensures Legal(Exploiting(s, 0.5, mine, theirs, bias)) && Legal(Striker())
    ensures var e1 := ReplyWeight(18, mine, theirs, bias, AT_SIX, 6);
      var e2 := ReplyWeight(19, mine, theirs, bias, AT_FIVE, 5);
      var lost := Value(s, HALF, 8, 6, 19)
                  - Expected(Exploiting(s, 0.5, mine, theirs, bias), Striker(), HALF, 8, 6, 19, h);
      && (lost > ExploitabilityBound(e1) <==> 3.0 * Times(e2, 1.0 - e1) > 2.0 * e1)
      && (lost > ExploitabilityBound(e2) <==> 11.0 * e1 > 9.0 * e2 + 6.0 * Times(e2, e1))
      && (e1 == e2 ==> (lost > ExploitabilityBound(e1) <==> 0.0 < e1 < 1.0 / 3.0))
  {
    hide Value, Expected, Accurate, Exploiting, Striker, Legal, ReplyWeight, Recorded;
    h := CostOfExploiting(s, mine, theirs, bias);
    NearWeights(ReplyWeight(18, mine, theirs, bias, AT_SIX, 6), ReplyWeight(19, mine, theirs, bias, AT_FIVE, 5));
  }

  lemma NearWeights(e1: real, e2: real)
    ensures Times(e2, 1.0 - e1) == e2 - Times(e2, e1)
    ensures e1 == e2 ==> (3.0 * Times(e2, 1.0 - e1) > 2.0 * e1 <==> 0.0 < e1 < 1.0 / 3.0)
  {
    if e1 == e2 {
      assert 3.0 * Times(e2, 1.0 - e1) - 2.0 * e1 == e1 * (1.0 - 3.0 * e1);
      if 0.0 < e1 < 1.0 / 3.0 {
        MulPositive(e1, 1.0 - 3.0 * e1);
      } else if e1 <= 0.0 {
        MulNonNeg(-e1, 1.0 - 3.0 * e1);
      } else {
        MulNonNeg(e1, 3.0 * e1 - 1.0);
      }
    }
  }

  /** In the first round of a match, for every measure that finds the two models equally
      predictable: it costs more than the documented bound if and only if that measure
      stays below 17/48. */
  lemma FirstRoundCostsMore(s: Solver, bias: BiasMeasure) returns (h: History)
    requires Accurate(s, 0.0) && Sound(s) && BiasOk(bias)
    requires bias(Conditional(AT_SIX, 6), 6) == bias(Conditional(AT_FIVE, 5), 5)
    ensures |h| == 18 && Recorded(h, 8, 6, AT_FIVE, AT_SIX)
    ensures Legal(Exploiting(s, 0.5, 0, 0, bias)) && Legal(Striker())
    ensures var lost := Value(s, HALF, 8, 6, 19)
                        - Expected(Exploiting(s, 0.5, 0, 0, bias), Striker(), HALF, 8, 6, 19, h);
      lost > ExploitabilityBound(ReplyWeight(18, 0, 0, bias, AT_SIX, 6)) <==>
        bias(Conditional(AT_SIX, 6), 6) < 17.0 / 48.0
  {
    hide Value, Expected, Accurate, Exploiting, Striker, Legal, Recorded, Conditional;
    h := ExploitingCostsMore(s, 0, 0, bias);
    var b := bias(Conditional(AT_SIX, 6), 6);
    assert 0.0 <= b <= 1.0;
    LevelEps(18, b);
    LevelEps(19, b);
  }

  lemma LevelEps(turns: nat, b: real)
    requires turns >= 3 && 0.0 <= b <= 1.0
    ensures EpsFor(turns, 0, 0, b) == 0.05 + 0.8 * b
  {
    TimesOne(b);
    assert !(turns as real / 3.0 < 1.0);
  }
}
