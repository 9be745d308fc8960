/** What every run of the match engine keeps: field ranges, counted wins, the
    shape of the turn history, conservation of ki, and termination. */
module EngineInvariants {
  import opened Wrappers
  import opened GameRules
  import opened MatchEngine

  // ----- the recorded history of a round -----

  /** The recorded turns of a round still in play, ending with the given ki: each
      turn starts where the previous one ended, the first from zero, every action
      was affordable, and no turn ended the round. */
  ghost predicate Chain(h: seq<TurnResult>, p1Ki: int, p2Ki: int) {
    if h == [] then p1Ki == 0 && p2Ki == 0
    else
      var t := h[|h| - 1];
      && t == ResolveTurn(|h|, t.p1Action, t.p2Action, t.p1Before, t.p2Before)
      && Affordable(t.p1Action, t.p1Before) && Affordable(t.p2Action, t.p2Before)
      && t.outcome != P1WinsRound && t.outcome != P2WinsRound
      && p1Ki == t.p1After && p2Ki == t.p2After
      && Chain(h[..|h| - 1], t.p1Before, t.p2Before)
  }

  lemma {:induction false} ChainRange(h: seq<TurnResult>, p1Ki: int, p2Ki: int)
    requires Chain(h, p1Ki, p2Ki)
    ensures 0 <= p1Ki <= KI_CAP && 0 <= p2Ki <= KI_CAP
  {
    if h != [] {
      var t := h[|h| - 1];
      ChainRange(h[..|h| - 1], t.p1Before, t.p2Before);
    }
  }

  function ActionOf(t: TurnResult, who: Winner): Action {
    if who == P1 then t.p1Action else t.p2Action
  }

  function BeforeOf(t: TurnResult, who: Winner): int {
    if who == P1 then t.p1Before else t.p2Before
  }

  function AfterOf(t: TurnResult, who: Winner): int {
    if who == P1 then t.p1After else t.p2After
  }

  /** Ki paid out over a history. */
  function Spent(h: seq<TurnResult>, who: Winner): nat {
    if h == [] then 0 else Spent(h[..|h| - 1], who) + Cost(ActionOf(h[|h| - 1], who))
  }

  /** Charges made over a history. */
  function Charges(h: seq<TurnResult>, who: Winner): nat {
    if h == [] then 0 else Charges(h[..|h| - 1], who) + Gain(ActionOf(h[|h| - 1], who))
  }

  /** Charges made at the cap, whose gain is lost. */
  function Wasted(h: seq<TurnResult>, who: Winner): nat {
    if h == [] then 0
    else
      var t := h[|h| - 1];
      Wasted(h[..|h| - 1], who) + (if ActionOf(t, who) == Charge && BeforeOf(t, who) == KI_CAP then 1 else 0)
  }

  /** Along any round, ki paid plus ki held plus ki lost at the cap is the number of charges. */
  lemma {:induction false} KiConserved(h: seq<TurnResult>, p1Ki: int, p2Ki: int)
    requires Chain(h, p1Ki, p2Ki)
    ensures Spent(h, P1) + p1Ki + Wasted(h, P1) == Charges(h, P1)
    ensures Spent(h, P2) + p2Ki + Wasted(h, P2) == Charges(h, P2)
  {
    if h != [] {
      var t := h[|h| - 1];
      ChainRange(h[..|h| - 1], t.p1Before, t.p2Before);
      KiConserved(h[..|h| - 1], t.p1Before, t.p2Before);
      PaymentIsExact(t.p1Action, t.p1Before);
      PaymentIsExact(t.p2Action, t.p2Before);
    }
  }

  /** Read forwards: turn i is numbered i + 1, starts from the ki turn i - 1 left,
      and every past action could be paid for. */
  lemma {:induction false} ChainForwards(h: seq<TurnResult>, p1Ki: int, p2Ki: int, i: nat)
    requires Chain(h, p1Ki, p2Ki) && i < |h|
    ensures h[i].turnNumber == i + 1
    ensures h[i].p1Before == (if i == 0 then 0 else h[i - 1].p1After)
    ensures h[i].p2Before == (if i == 0 then 0 else h[i - 1].p2After)
    ensures 0 <= h[i].p1Before <= KI_CAP && Affordable(h[i].p1Action, h[i].p1Before)
    ensures 0 <= h[i].p2Before <= KI_CAP && Affordable(h[i].p2Action, h[i].p2Before)
  {
    var t, rest := h[|h| - 1], h[..|h| - 1];
    ChainRange(rest, t.p1Before, t.p2Before);
    if i < |rest| {
      ChainForwards(rest, t.p1Before, t.p2Before, i);
    }
  }

  // ----- the whole match -----

  function CountWins(results: seq<RoundResult>, who: Winner): nat {
    if results == [] then 0
    else CountWins(results[..|results| - 1], who) + (if results[|results| - 1].winner == who then 1 else 0)
  }

  ghost predicate ResultOk(rr: RoundResult, number: int) {
    && rr.roundNumber == number && 1 <= rr.totalTurns <= TURN_LIMIT
    && 0 <= rr.finalP1Ki <= KI_CAP && 0 <= rr.finalP2Ki <= KI_CAP
  }

  ghost predicate RoundOk(r: RoundState, number: int) {
    && r.roundNumber == number
    && 0 <= r.turnNumber < TURN_LIMIT && |r.history| == r.turnNumber
    && Chain(r.history, r.p1Ki, r.p2Ki)
  }

  ghost predicate Valid(gs: GameState) {
    && |gs.results| <= MAX_ROUNDS
    && (forall i :: 0 <= i < |gs.results| ==> ResultOk(gs.results[i], i + 1))
    && gs.wonP1 == CountWins(gs.results, P1) && gs.wonP2 == CountWins(gs.results, P2)
    && gs.wonP1 + gs.wonP2 <= |gs.results|
    && gs.wonP1 <= ROUNDS_TO_WIN && gs.wonP2 <= ROUNDS_TO_WIN
    && !(gs.wonP1 == ROUNDS_TO_WIN && gs.wonP2 == ROUNDS_TO_WIN)
    && (gs.current.Some? ==> MatchWinner(gs) == None && RoundOk(gs.current.value, |gs.results| + 1))
    && (gs.status == InProgress ==> gs.current.Some?)
    && (gs.status == Completed ==> gs.current == None && MatchWinner(gs).Some?)
  }

  /** The range constraints a stored state is checked against when it is reloaded. */
  ghost predicate ReloadConstraints(gs: GameState) {
    && 0 <= gs.wonP1 <= ROUNDS_TO_WIN && 0 <= gs.wonP2 <= ROUNDS_TO_WIN
    && (gs.current.Some? ==>
        var r := gs.current.value;
        && 1 <= r.roundNumber <= 3 && r.turnNumber >= 0
        && 0 <= r.p1Ki <= KI_CAP && 0 <= r.p2Ki <= KI_CAP)
  }

  lemma ValidReloads(gs: GameState)
    requires Valid(gs)
    ensures ReloadConstraints(gs)
  {
    if gs.current.Some? {
      var r := gs.current.value;
      ChainRange(r.history, r.p1Ki, r.p2Ki);
    }
  }

  /** Upper bound on the turns still to come. */
  function TurnsLeft(gs: GameState): int {
    if gs.current == None then 0
    else TURN_LIMIT * (MAX_ROUNDS - |gs.results|) - gs.current.value.turnNumber
  }

  lemma AppendedResult(results: seq<RoundResult>, rr: RoundResult)
    ensures SumTurns(results + [rr]) == SumTurns(results) + rr.totalTurns
    ensures CountWins(results + [rr], P1) == CountWins(results, P1) + (if rr.winner == P1 then 1 else 0)
    ensures CountWins(results + [rr], P2) == CountWins(results, P2) + (if rr.winner == P2 then 1 else 0)
  {
    assert (results + [rr])[..|results|] == results;
  }

  /** Playing one affordable turn of a round extends its history by that turn. */
  lemma TurnPlayed(r: RoundState, number: int, p1: Action, p2: Action)
    requires RoundOk(r, number) && Affordable(p1, r.p1Ki) && Affordable(p2, r.p2Ki)
    ensures var t := ResolveTurn(r.turnNumber + 1, p1, p2, r.p1Ki, r.p2Ki);
      var r' := PlayedRound(r, t);
      t.turnNumber == r.turnNumber + 1 &&
      match CheckRoundEnd(t, r')
      case None => RoundOk(r', number)
      case Some(rr) => ResultOk(rr, number)
  {
    var t := ResolveTurn(r.turnNumber + 1, p1, p2, r.p1Ki, r.p2Ki);
    ChainRange(r.history, r.p1Ki, r.p2Ki);
    PaymentIsExact(p1, r.p1Ki);
    PaymentIsExact(p2, r.p2Ki);
    assert (r.history + [t])[..|r.history + [t]| - 1] == r.history;
  }

  lemma FreshRound(results: seq<RoundResult>)
    ensures RoundOk(NewRound(results), |results| + 1)
  {}

  /** Closing a round books its winner, and either ends the match or opens the next round. */
  lemma RoundClosed(gs: GameState, rr: RoundResult)
    requires Valid(gs) && gs.status == InProgress && ResultOk(rr, |gs.results| + 1)
    ensures var closed := CloseRound(gs, rr);
      var me := CheckMatchEnd(closed);
      var next := AfterRound(closed, me);
      && Valid(next) && next.status == (if me.Some? then Completed else InProgress)
      && SumTurns(next.results) == SumTurns(gs.results) + rr.totalTurns
      && |next.results| == |gs.results| + 1
      && MatchWinner(next) == MatchWinner(closed)
  {
    hide SumTurns, CountWins, Chain, RoundOk, ResultOk;
    var closed := CloseRound(gs, rr);
    AppendedResult(gs.results, rr);
    FreshRound(closed.results);
    assert forall i :: 0 <= i < |closed.results| ==> ResultOk(closed.results[i], i + 1);
    assert MatchWinner(closed).Some? <==> CheckMatchEnd(closed).Some?;
  }

  /** One accepted turn keeps every invariant, is counted once, and uses up at
      least one of the turns that were left. */
  lemma SubmitKeepsValid(gs: GameState, p1: Action, p2: Action)
    requires Valid(gs) && SubmitTurn(gs, p1, p2).Ok?
    ensures var s := SubmitTurn(gs, p1, p2).value;
      && Valid(s.state)
      && TotalTurns(s.state) == TotalTurns(gs) + 1
      && 0 <= TurnsLeft(s.state) < TurnsLeft(gs)
      && s.state.status == (if s.matchEnd.Some? then Completed else InProgress)
      && (s.matchEnd.Some? ==> s.matchEnd.value.totalTurns == TotalTurns(s.state))
      && (s.matchEnd.Some? ==> Some(s.matchEnd.value.winner) == MatchWinner(s.state))
  {
    hide SumTurns, CountWins, Chain, ResolveTurn;
    var r := gs.current.value;
    TurnPlayed(r, |gs.results| + 1, p1, p2);
    var t := ResolveTurn(r.turnNumber + 1, p1, p2, r.p1Ki, r.p2Ki);
    var r' := PlayedRound(r, t);
    match CheckRoundEnd(t, r')
    case None =>
      assert SubmitTurn(gs, p1, p2).value.state == gs.(current := Some(r'));
    case Some(rr) =>
      RoundClosed(gs, rr);
      assert rr.totalTurns == r.turnNumber + 1;
      var s := SubmitTurn(gs, p1, p2).value;
      assert s.matchEnd == CheckMatchEnd(CloseRound(gs, rr));
  }

  /** The player a won turn goes to. */
  function BlowBy(o: Outcome): Option<Winner> {
    match o
    case P1WinsRound => Some(P1)
    case P2WinsRound => Some(P2)
    case _ => None
  }

  /** What an accepted turn reports of the turn and of the round: the turn as it was
      played; the round is over exactly after a winning blow or the twentieth turn; its
      result carries the turns played and the ki held at the end, and goes to the player
      of the blow, or else to the one with more ki, or to nobody. It is booked last. */
  lemma SubmitReportsRound(gs: GameState, p1: Action, p2: Action)
    requires Valid(gs) && SubmitTurn(gs, p1, p2).Ok?
    ensures var r, s := gs.current.value, SubmitTurn(gs, p1, p2).value;
      var t := s.turn;
      && t.turnNumber == r.turnNumber + 1 && t.p1Action == p1 && t.p2Action == p2
      && t.p1Before == r.p1Ki && t.p2Before == r.p2Ki && t.outcome == Resolve(p1, p2)
      && t.p1After == KiAfter(p1, r.p1Ki) && t.p2After == KiAfter(p2, r.p2Ki)
      && (s.round.Some? <==> BlowBy(t.outcome).Some? || r.turnNumber + 1 == 20)
      && match s.round
         case None =>
           && s.state == gs.(current := s.state.current) && s.matchEnd == None
           && s.state.current == Some(RoundState(|gs.results| + 1, t.p1After, t.p2After, t.turnNumber, r.history + [t]))
         case Some(rr) =>
           && rr.roundNumber == |gs.results| + 1 && rr.totalTurns == t.turnNumber
           && rr.finalP1Ki == t.p1After && rr.finalP2Ki == t.p2After
           && (BlowBy(t.outcome).Some? ==> rr.winner == BlowBy(t.outcome).value)
           && (BlowBy(t.outcome) == None ==>
                 && (rr.winner == P1 <==> t.p1After > t.p2After) && (rr.winner == P2 <==> t.p2After > t.p1After))
           && s.state.results == gs.results + [rr]
  {
    hide CountWins, SumTurns, Chain, Resolve, KiAfter;
  }

  /** What it reports of the match: the match is over exactly when a player has won two
      rounds or three have been played, and then the report gives each player the rounds
      counted for them, all the results, all the turns, and as the winner the player with
      two rounds, if there is one; otherwise the next round begins from nothing. */
  lemma SubmitReportsMatch(gs: GameState, p1: Action, p2: Action)
    requires Valid(gs) && SubmitTurn(gs, p1, p2).Ok? && SubmitTurn(gs, p1, p2).value.round.Some?
    ensures var s := SubmitTurn(gs, p1, p2).value;
      var n1, n2 := CountWins(s.state.results, P1), CountWins(s.state.results, P2);
      && (s.matchEnd.Some? <==> n1 == 2 || n2 == 2 || |s.state.results| == 3)
      && match s.matchEnd
         case None => s.state.current == Some(RoundState(|s.state.results| + 1, 0, 0, 0, []))
         case Some(me) =>
           && s.state.current == None
           && me.wonP1 == n1 && me.wonP2 == n2 && me.results == s.state.results
           && me.totalTurns == SumTurns(s.state.results)
           && (me.winner == P1 <==> n1 == 2) && (me.winner == P2 <==> n2 == 2)
  {
    hide CountWins, SumTurns, Chain, ResolveTurn;
    SubmitKeepsValid(gs, p1, p2);
  }

  /** A submission to a match in play is refused exactly when a player cannot pay, and the
      first such player is named; outside of play every submission is refused. */
  lemma SubmitRefuses(gs: GameState, p1: Action, p2: Action)
    requires Valid(gs)
    ensures SubmitTurn(gs, p1, p2) == Err(NotInProgress) <==> gs.status != InProgress
    ensures SubmitTurn(gs, p1, p2) != Err(NoActiveRound)
    ensures gs.status == InProgress ==>
      var r := gs.current.value;
      && (SubmitTurn(gs, p1, p2) == Err(CannotAfford(P1)) <==> Cost(p1) > r.p1Ki)
      && (SubmitTurn(gs, p1, p2) == Err(CannotAfford(P2)) <==> Cost(p1) <= r.p1Ki && Cost(p2) > r.p2Ki)
      && (SubmitTurn(gs, p1, p2).Ok? <==> Cost(p1) <= r.p1Ki && Cost(p2) <= r.p2Ki)
  {
    hide CountWins, SumTurns, Chain, RoundOk, MatchWinner;
  }

  /** A forfeit keeps the match valid, changes nothing but its status, and reports the
      other player as the winner, the score as it stands, and every turn played. */
  lemma ForfeitKeepsValid(gs: GameState, forfeiting: Winner)
    requires Valid(gs) && forfeiting != Draw
    ensures var (next, result) := Forfeit(gs, forfeiting);
      && Valid(next) && next == gs.(status := Abandoned)
      && result.winner != forfeiting && result.winner != Draw
      && result.wonP1 == CountWins(gs.results, P1) && result.wonP2 == CountWins(gs.results, P2)
      && result.results == gs.results
      && result.totalTurns == TotalTurns(gs) == TotalTurns(next)
  {}

  // ----- runs -----

  /** The state after a list of submissions; a refused one changes nothing. */
  function Play(gs: GameState, moves: seq<(Action, Action)>): GameState {
    if moves == [] then gs
    else
      var before := Play(gs, moves[..|moves| - 1]);
      var m := moves[|moves| - 1];
      match SubmitTurn(before, m.0, m.1)
      case Ok(s) => s.state
      case Err(_) => before
  }

  /** How many of the submissions were accepted. */
  function Accepted(gs: GameState, moves: seq<(Action, Action)>): nat {
    if moves == [] then 0
    else
      var m := moves[|moves| - 1];
      Accepted(gs, moves[..|moves| - 1])
      + (if SubmitTurn(Play(gs, moves[..|moves| - 1]), m.0, m.1).Ok? then 1 else 0)
  }

  lemma {:induction false} SumTurnsBound(results: seq<RoundResult>)
    requires forall i :: 0 <= i < |results| ==> ResultOk(results[i], i + 1)
    ensures |results| <= SumTurns(results) <= TURN_LIMIT * |results|
  {
    if results != [] {
      SumTurnsBound(results[..|results| - 1]);
    }
  }

  /** Every run of the engine, accepted and refused submissions alike: the state
      is valid, the turns recorded are exactly the submissions accepted, and a
      match is over after at most 60 of them. */
  lemma {:induction false} EveryRun(moves: seq<(Action, Action)>)
    ensures var gs := Play(StartMatch(), moves);
      && Valid(gs) && ReloadConstraints(gs) && gs.status != Abandoned
      && TotalTurns(gs) == Accepted(StartMatch(), moves) <= TURN_LIMIT * MAX_ROUNDS
      && (gs.status == InProgress ==> 0 < TurnsLeft(gs) <= TURN_LIMIT * MAX_ROUNDS - Accepted(StartMatch(), moves))
  {
    var gs := Play(StartMatch(), moves);
    if moves != [] {
      EveryRun(moves[..|moves| - 1]);
      var before, m := Play(StartMatch(), moves[..|moves| - 1]), moves[|moves| - 1];
      if SubmitTurn(before, m.0, m.1).Ok? {
        SubmitKeepsValid(before, m.0, m.1);
      }
    }
    ValidReloads(gs);
    SumTurnsBound(gs.results);
  }

  /** A valid match in progress always accepts some pair of actions: play never gets stuck. */
  lemma NeverStuck(gs: GameState)
    requires Valid(gs) && gs.status == InProgress
    ensures SubmitTurn(gs, Charge, Charge).Ok?
  {
    var r := gs.current.value;
    ChainRange(r.history, r.p1Ki, r.p2Ki);
  }
}
