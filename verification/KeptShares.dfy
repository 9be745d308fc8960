/** The greatest share that is kept: the least product of the factors along any way a
    round, or a match, can go on. */
module KeptShares {
  import opened Wrappers
  import opened GameRules
  import opened MatchEngine
  import opened EngineInvariants
  import opened Vectors
  import opened MatrixGame
  import opened StageGame
  import opened RoundSolver
  import opened RoundGuarantee
  import opened EngineGuarantee

  /** The least entry. */
  function LeastOf(m: Mat, n: nat, l: nat): (least: real)
    requires Game(m, n, l)
    ensures exists i, j :: 0 <= i < n && 0 <= j < l && least == m[i][j]
    ensures forall i, j :: 0 <= i < n && 0 <= j < l ==> least <= m[i][j]
  {
    var rows := seq(n, i requires 0 <= i < n => Min(m[i]));
    assert forall i :: 0 <= i < n ==> rows[i] == Min(m[i]) && rows[i] in m[i];
    Min(rows)
  }

  // ----- a round -----

  /** What is kept from a situation on: the factor here times the least of what is kept
      after any pair of actions with which the round goes on; all of it once it is finished. */
  ghost function Lasts(row: Policy, c: Share, h: History, a: int, b: int, t: int): real
    decreases TURN_LIMIT - t, 1
  {
    if !KiRange(a) || !KiRange(b) || Finishes(row(h, a, b, t), a, b) then 1.0
    else if t >= TURN_LIMIT then c(h, a, b, t)
    else Times(c(h, a, b, t), LeastOf(LastsAfter(row, c, h, a, b, t), |AffordableActions(a)|, |AffordableActions(b)|))
  }

  ghost function LastsAfter(row: Policy, c: Share, h: History, a: int, b: int, t: int): (m: Mat)
    requires KiRange(a) && KiRange(b) && t < TURN_LIMIT
    ensures Game(m, |AffordableActions(a)|, |AffordableActions(b)|)
    decreases TURN_LIMIT - t, 0
  {
    AffordableCases(a);
    AffordableCases(b);
    var rows, cols := AffordableActions(a), AffordableActions(b);
    seq(|rows|, i requires 0 <= i < |rows| =>
      seq(|cols|, j requires 0 <= j < |cols| =>
        if ImmediateOutcome(rows[i], cols[j]) == 0
        then Lasts(row, c, h + [(rows[i], cols[j])], KiAfter(rows[i], a), KiAfter(cols[j], b), t + 1) else 1.0))
  }

  ghost function Lasting(row: Policy, c: Share): Share {
    (h, a, b, t) => Lasts(row, c, h, a, b, t)
  }

  ghost predicate UnitShares(c: Share) {
    forall h, a, b, t :: KiRange(a) && KiRange(b) && 1 <= t <= TURN_LIMIT ==> UnitShare(c, h, a, b, t)
  }

  ghost predicate UnitShare(c: Share, h: History, a: int, b: int, t: int) {
    0.0 <= c(h, a, b, t) <= 1.0
  }

  lemma AheadIs(row: Policy, c: Share, h: History, a: int, b: int, t: int, i: nat, j: nat)
    requires KiRange(a) && KiRange(b) && t < TURN_LIMIT
    requires i < |AffordableActions(a)| && j < |AffordableActions(b)|
    ensures LastsAfter(row, c, h, a, b, t)[i][j] == Ahead(Lasting(row, c), h, a, b, t, i, j)
  {
    hide Lasts, AffordableActions;
  }

  lemma {:induction false} LastsInUnit(row: Policy, c: Share, h: History, a: int, b: int, t: int)
    requires UnitShares(c) && 1 <= t <= TURN_LIMIT
    ensures 0.0 <= Lasts(row, c, h, a, b, t) <= 1.0
    decreases TURN_LIMIT - t
  {
    hide Finishes, AffordableActions, Times, LeastOf, LastsAfter, UnitShares;
    if KiRange(a) && KiRange(b) {
      UnitHere(c, h, a, b, t);
      if t < TURN_LIMIT {
        EntriesLast(row, c, h, a, b, t);
        var least := LeastOf(LastsAfter(row, c, h, a, b, t), |AffordableActions(a)|, |AffordableActions(b)|);
        TimesUnit(c(h, a, b, t), least);
      }
    }
  }

  /** It is sustained by the factors. */
  lemma LastingSustained(row: Policy, c: Share)
    requires UnitShares(c)
    ensures Sustained(row, Lasting(row, c), c)
  {
    hide Finishes, AffordableActions, Times, LeastOf, Ahead;
    var k := Lasting(row, c);
    forall h: History, a, b, t | KiRange(a) && KiRange(b) && 1 <= t <= TURN_LIMIT
      ensures SustainedAt(row, k, c, h, a, b, t)
    {
      assert UnitShare(c, h, a, b, t);
      LastsInUnit(row, c, h, a, b, t);
      if t < TURN_LIMIT && !Finishes(row(h, a, b, t), a, b) {
        LastingHere(row, c, h, a, b, t);
      }
    }
  }

  lemma LastingHere(row: Policy, c: Share, h: History, a: int, b: int, t: int)
    requires UnitShares(c) && KiRange(a) && KiRange(b) && 1 <= t < TURN_LIMIT && !Finishes(row(h, a, b, t), a, b)
    ensures Lasts(row, c, h, a, b, t) <= c(h, a, b, t)
    ensures forall i, j :: 0 <= i < |AffordableActions(a)| && 0 <= j < |AffordableActions(b)| ==>
      Lasts(row, c, h, a, b, t) <= Times(c(h, a, b, t), Ahead(Lasting(row, c), h, a, b, t, i, j))
  {
    hide Finishes, AffordableActions, Times, Ahead, Lasts, LastsAfter, UnitShares;
    var m, n, l := LastsAfter(row, c, h, a, b, t), |AffordableActions(a)|, |AffordableActions(b)|;
    var least := LeastOf(m, n, l);
    UnitHere(c, h, a, b, t);
    EntriesLast(row, c, h, a, b, t);
    LastsHere(row, c, h, a, b, t);
    TimesUnit(c(h, a, b, t), least);
    forall i, j | 0 <= i < n && 0 <= j < l
      ensures Times(c(h, a, b, t), least) <= Times(c(h, a, b, t), Ahead(Lasting(row, c), h, a, b, t, i, j))
    {
      AheadIs(row, c, h, a, b, t, i, j);
      TimesBoth(c(h, a, b, t), c(h, a, b, t), least, m[i][j]);
    }
  }

  lemma UnitHere(c: Share, h: History, a: int, b: int, t: int)
    requires UnitShares(c) && KiRange(a) && KiRange(b) && 1 <= t <= TURN_LIMIT
    ensures UnitShare(c, h, a, b, t)
  {}

  lemma {:induction false} EntriesLast(row: Policy, c: Share, h: History, a: int, b: int, t: int)
    requires UnitShares(c) && KiRange(a) && KiRange(b) && 1 <= t < TURN_LIMIT
    ensures EntriesWithin(LastsAfter(row, c, h, a, b, t), |AffordableActions(a)|, |AffordableActions(b)|, 0.0, 1.0)
    decreases TURN_LIMIT - t, 0
  {
    hide AffordableActions, Lasts, UnitShares, Ahead, LastsAfter;
    var m := LastsAfter(row, c, h, a, b, t);
    forall i, j | 0 <= i < |AffordableActions(a)| && 0 <= j < |AffordableActions(b)| ensures 0.0 <= m[i][j] <= 1.0 {
      var me, opp := AffordableActions(a)[i], AffordableActions(b)[j];
      LastsInUnit(row, c, h + [(me, opp)], KiAfter(me, a), KiAfter(opp, b), t + 1);
      AheadIs(row, c, h, a, b, t, i, j);
      AheadInUnit(row, c, h, a, b, t, i, j);
    }
  }

  lemma AheadInUnit(row: Policy, c: Share, h: History, a: int, b: int, t: int, i: nat, j: nat)
    requires i < |AffordableActions(a)| && j < |AffordableActions(b)|
    requires var me, opp := AffordableActions(a)[i], AffordableActions(b)[j];
      0.0 <= Lasts(row, c, h + [(me, opp)], KiAfter(me, a), KiAfter(opp, b), t + 1) <= 1.0
    ensures 0.0 <= Ahead(Lasting(row, c), h, a, b, t, i, j) <= 1.0
  {
    hide Lasts, AffordableActions;
  }

  /** And nothing greater is: it is the minimum over the ways the round can go on of the
      product of the factors. */
  lemma {:induction false} LastingGreatest(row: Policy, k: Share, c: Share, h: History, a: int, b: int, t: int)
    requires Sustained(row, k, c) && UnitShares(c) && KiRange(a) && KiRange(b) && 1 <= t <= TURN_LIMIT
    ensures k(h, a, b, t) <= Lasts(row, c, h, a, b, t)
    decreases TURN_LIMIT - t
  {
    hide Finishes, AffordableActions, Times, Sustained, Lasts, LastsAfter, Ahead;
    SustainedHere(row, k, c, h, a, b, t);
    LastsHere(row, c, h, a, b, t);
    if t < TURN_LIMIT && !Finishes(row(h, a, b, t), a, b) {
      var m, n, l := LastsAfter(row, c, h, a, b, t), |AffordableActions(a)|, |AffordableActions(b)|;
      var i, j :| 0 <= i < n && 0 <= j < l && LeastOf(m, n, l) == m[i][j];
      var me, opp := AffordableActions(a)[i], AffordableActions(b)[j];
      if ImmediateOutcome(me, opp) == 0 {
        LastingGreatest(row, k, c, h + [(me, opp)], KiAfter(me, a), KiAfter(opp, b), t + 1);
      }
      AheadAtMost(row, k, c, h, a, b, t, i, j);
      assert UnitShare(c, h, a, b, t);
      TimesBoth(c(h, a, b, t), c(h, a, b, t), Ahead(k, h, a, b, t, i, j), m[i][j]);
    }
  }

  lemma LastsHere(row: Policy, c: Share, h: History, a: int, b: int, t: int)
    requires KiRange(a) && KiRange(b)
    ensures Lasts(row, c, h, a, b, t) ==
      if Finishes(row(h, a, b, t), a, b) then 1.0
      else if t >= TURN_LIMIT then c(h, a, b, t)
      else Times(c(h, a, b, t), LeastOf(LastsAfter(row, c, h, a, b, t), |AffordableActions(a)|, |AffordableActions(b)|))
  {}

  lemma AheadAtMost(row: Policy, k: Share, c: Share, h: History, a: int, b: int, t: int, i: nat, j: nat)
    requires Sustained(row, k, c) && KiRange(a) && KiRange(b) && 1 <= t < TURN_LIMIT
    requires i < |AffordableActions(a)| && j < |AffordableActions(b)|
    requires var me, opp := AffordableActions(a)[i], AffordableActions(b)[j];
      ImmediateOutcome(me, opp) == 0 ==>
        k(h + [(me, opp)], KiAfter(me, a), KiAfter(opp, b), t + 1)
        <= Lasts(row, c, h + [(me, opp)], KiAfter(me, a), KiAfter(opp, b), t + 1)
    ensures 0.0 <= Ahead(k, h, a, b, t, i, j) <= LastsAfter(row, c, h, a, b, t)[i][j]
  {
    hide Finishes, AffordableActions, Times, Sustained, Lasts, LastsAfter;
    var me, opp := AffordableActions(a)[i], AffordableActions(b)[j];
    AheadIs(row, c, h, a, b, t, i, j);
    if ImmediateOutcome(me, opp) == 0 {
      SustainedHere(row, k, c, h + [(me, opp)], KiAfter(me, a), KiAfter(opp, b), t + 1);
    }
  }

  // ----- a match -----

  /** The same over a match: the least product along any way it can go on. */
  ghost function MatchLasts(row: MatchPolicy, c: MatchShare, h: History, gs: GameState): real
    decreases if Valid(gs) then TurnsLeft(gs) else 0, 2
  {
    if !Valid(gs) || gs.status != InProgress then 1.0
    else
      var n, l := |AffordableActions(gs.current.value.p2Ki)|, |AffordableActions(gs.current.value.p1Ki)|;
      Times(if FinishesNow(row, h, gs) then 1.0 else c(h, gs), LeastOf(MatchLastsAfter(row, c, h, gs), n, l))
  }

  ghost function MatchLastsAfter(row: MatchPolicy, c: MatchShare, h: History, gs: GameState): (m: Mat)
    requires Valid(gs) && gs.status == InProgress
    ensures Game(m, |AffordableActions(gs.current.value.p2Ki)|, |AffordableActions(gs.current.value.p1Ki)|)
    decreases TurnsLeft(gs), 1
  {
    KiInRange(gs);
    AffordableCases(gs.current.value.p2Ki);
    AffordableCases(gs.current.value.p1Ki);
    var rows, cols := AffordableActions(gs.current.value.p2Ki), AffordableActions(gs.current.value.p1Ki);
    seq(|rows|, i requires 0 <= i < |rows| =>
      seq(|cols|, j requires 0 <= j < |cols| => MatchLastsNext(row, c, h, gs, rows[i], cols[j])))
  }

  ghost function MatchLastsNext(row: MatchPolicy, c: MatchShare, h: History, gs: GameState,
                                me: Action, other: Action): real
    requires Valid(gs) && gs.status == InProgress
    decreases TurnsLeft(gs), 0
  {
    match SubmitTurn(gs, other, me)
    case Ok(sub) =>
      SubmitKeepsValid(gs, other, me);
      if sub.state.status == InProgress then MatchLasts(row, c, h + [(me, other)], sub.state) else 1.0
    case Err(_) => 1.0
  }

  ghost function MatchLasting(row: MatchPolicy, c: MatchShare): MatchShare {
    (h, gs) => MatchLasts(row, c, h, gs)
  }

  ghost predicate UnitMatchShares(c: MatchShare) {
    forall h, gs: GameState :: Valid(gs) && gs.status == InProgress ==> UnitMatchShare(c, h, gs)
  }

  ghost predicate UnitMatchShare(c: MatchShare, h: History, gs: GameState) {
    0.0 <= c(h, gs) <= 1.0
  }

  lemma AfterIs(row: MatchPolicy, c: MatchShare, h: History, gs: GameState, i: nat, j: nat)
    requires Valid(gs) && gs.status == InProgress
    requires i < |AffordableActions(gs.current.value.p2Ki)| && j < |AffordableActions(gs.current.value.p1Ki)|
    ensures MatchLastsAfter(row, c, h, gs)[i][j] == ShareAfterAt(MatchLasting(row, c), gs, h, i, j)
  {
    hide MatchLasts, SubmitTurn, AffordableActions, Chain, CountWins, SumTurns, ResultOk;
  }

  /** The factor that counts at a state. */
  ghost function FactorAt(row: MatchPolicy, c: MatchShare, h: History, gs: GameState): real
    requires Valid(gs) && gs.status == InProgress
  {
    if FinishesNow(row, h, gs) then 1.0 else c(h, gs)
  }

  lemma {:induction false} MatchLastsInUnit(row: MatchPolicy, c: MatchShare, h: History, gs: GameState)
    requires UnitMatchShares(c)
    ensures 0.0 <= MatchLasts(row, c, h, gs) <= 1.0
    decreases if Valid(gs) then TurnsLeft(gs) else 0, 1
  {
    hide FinishesNow, AffordableActions, Times, LeastOf, Chain, CountWins, SumTurns, ResultOk, SubmitTurn;
    if Valid(gs) && gs.status == InProgress {
      var m := MatchLastsAfter(row, c, h, gs);
      var n, l := |AffordableActions(gs.current.value.p2Ki)|, |AffordableActions(gs.current.value.p1Ki)|;
      assert UnitMatchShare(c, h, gs);
      MatchEntriesInUnit(row, c, h, gs);
      TimesUnit(FactorAt(row, c, h, gs), LeastOf(m, n, l));
    }
  }

  lemma {:induction false} MatchEntriesInUnit(row: MatchPolicy, c: MatchShare, h: History, gs: GameState)
    requires UnitMatchShares(c) && Valid(gs) && gs.status == InProgress
    ensures EntriesWithin(MatchLastsAfter(row, c, h, gs), |AffordableActions(gs.current.value.p2Ki)|,
                          |AffordableActions(gs.current.value.p1Ki)|, 0.0, 1.0)
    decreases TurnsLeft(gs), 0
  {
    hide FinishesNow, AffordableActions, Times, LeastOf, Chain, CountWins, SumTurns, ResultOk, SubmitTurn, MatchLasts,
      UnitMatchShares, MatchLastsAfter;
    var m := MatchLastsAfter(row, c, h, gs);
    var rows, cols := AffordableActions(gs.current.value.p2Ki), AffordableActions(gs.current.value.p1Ki);
    forall i, j | 0 <= i < |rows| && 0 <= j < |cols| ensures 0.0 <= m[i][j] <= 1.0 {
      AfterIs(row, c, h, gs, i, j);
      if SubmitTurn(gs, cols[j], rows[i]).Ok? {
        SubmitKeepsValid(gs, cols[j], rows[i]);
        var sub := SubmitTurn(gs, cols[j], rows[i]).value;
        if sub.state.status == InProgress {
          MatchLastsInUnit(row, c, h + [(rows[i], cols[j])], sub.state);
        }
      }
    }
  }

  lemma MatchLastingHere(row: MatchPolicy, c: MatchShare, h: History, gs: GameState)
    requires UnitMatchShares(c) && Valid(gs) && gs.status == InProgress
    ensures MatchSustainedAt(row, MatchLasting(row, c), c, h, gs)
  {
    hide FinishesNow, AffordableActions, Times, Chain, CountWins, SumTurns, ResultOk, SubmitTurn, ShareAfterAt,
      MatchLastsAfter;
    var m := MatchLastsAfter(row, c, h, gs);
    var n, l := |AffordableActions(gs.current.value.p2Ki)|, |AffordableActions(gs.current.value.p1Ki)|;
    var factor, least := FactorAt(row, c, h, gs), LeastOf(m, n, l);
    assert UnitMatchShare(c, h, gs);
    MatchLastsInUnit(row, c, h, gs);
    MatchEntriesInUnit(row, c, h, gs);
    forall i, j | 0 <= i < n && 0 <= j < l
      ensures Times(factor, least) <= Times(factor, ShareAfterAt(MatchLasting(row, c), gs, h, i, j))
    {
      AfterIs(row, c, h, gs, i, j);
      TimesBoth(factor, factor, least, m[i][j]);
    }
  }

  lemma MatchLastingSustained(row: MatchPolicy, c: MatchShare)
    requires UnitMatchShares(c)
    ensures MatchSustained(row, MatchLasting(row, c), c)
  {
    hide Valid, MatchLasting, MatchSustainedAt, UnitMatchShares;
    forall h: History, gs: GameState | Valid(gs) && gs.status == InProgress
      ensures gs.current.Some? && MatchSustainedAt(row, MatchLasting(row, c), c, h, gs)
    {
      ResultsInPlay(gs);
      MatchLastingHere(row, c, h, gs);
    }
  }

  lemma {:induction false} MatchLastingGreatest(row: MatchPolicy, k: MatchShare, c: MatchShare, h: History,
                                                gs: GameState)
    requires MatchSustained(row, k, c) && UnitMatchShares(c) && Valid(gs) && gs.status == InProgress
    ensures k(h, gs) <= MatchLasts(row, c, h, gs)
    decreases TurnsLeft(gs)
  {
    hide FinishesNow, AffordableActions, Times, Chain, CountWins, SumTurns, ResultOk, SubmitTurn, MatchSustained,
      UnitMatchShares, MatchLasts, MatchLastsAfter;
    var m := MatchLastsAfter(row, c, h, gs);
    var rows, cols := AffordableActions(gs.current.value.p2Ki), AffordableActions(gs.current.value.p1Ki);
    var i, j :| 0 <= i < |rows| && 0 <= j < |cols| && LeastOf(m, |rows|, |cols|) == m[i][j];
    SustainedThere(row, k, c, h, gs);
    var ahead, factor := ShareAfterAt(k, gs, h, i, j), FactorAt(row, c, h, gs);
    AfterInUnit(row, k, c, gs, h, i, j);
    if SubmitTurn(gs, cols[j], rows[i]).Ok? {
      SubmitKeepsValid(gs, cols[j], rows[i]);
      var sub := SubmitTurn(gs, cols[j], rows[i]).value;
      if sub.state.status == InProgress {
        MatchLastingGreatest(row, k, c, h + [(rows[i], cols[j])], sub.state);
      }
    }
    AfterIs(row, c, h, gs, i, j);
    TimesBoth(factor, factor, ahead, m[i][j]);
    MatchLastsHere(row, c, h, gs);
  }

  lemma SustainedThere(row: MatchPolicy, k: MatchShare, c: MatchShare, h: History, gs: GameState)
    requires MatchSustained(row, k, c) && UnitMatchShares(c) && Valid(gs) && gs.status == InProgress
    ensures MatchSustainedAt(row, k, c, h, gs) && 0.0 <= c(h, gs) <= 1.0
  {
    hide Valid, MatchSustainedAt;
    assert UnitMatchShare(c, h, gs);
  }

  lemma MatchLastsHere(row: MatchPolicy, c: MatchShare, h: History, gs: GameState)
    requires Valid(gs) && gs.status == InProgress
    ensures MatchLasts(row, c, h, gs)
         == Times(FactorAt(row, c, h, gs),
                  LeastOf(MatchLastsAfter(row, c, h, gs), |AffordableActions(gs.current.value.p2Ki)|,
                          |AffordableActions(gs.current.value.p1Ki)|))
  {}
}
