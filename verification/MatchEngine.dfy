/** The best-of-three match as a pure state machine: one step per submitted turn. */
module MatchEngine {
  import opened Wrappers
  import opened GameRules

  datatype Status = InProgress | Completed | Abandoned

  datatype Winner = P1 | P2 | Draw

  datatype RoundState = RoundState(roundNumber: int, p1Ki: int, p2Ki: int, turnNumber: int, history: seq<TurnResult>)

  datatype RoundResult = RoundResult(roundNumber: int, winner: Winner, totalTurns: int, finalP1Ki: int, finalP2Ki: int)

  datatype GameState = GameState(
    status: Status, wonP1: int, wonP2: int,
    current: Option<RoundState>, results: seq<RoundResult>)

  datatype MatchResult = MatchResult(winner: Winner, wonP1: int, wonP2: int, results: seq<RoundResult>, totalTurns: int)

  datatype EngineError = NotInProgress | NoActiveRound | CannotAfford(player: Winner)

  datatype Submission = Submission(
    state: GameState, turn: TurnResult, round: Option<RoundResult>, matchEnd: Option<MatchResult>)

  function NewRound(results: seq<RoundResult>): RoundState {
    RoundState(|results| + 1, 0, 0, 0, [])
  }

  function StartMatch(): GameState {
    GameState(InProgress, 0, 0, Some(NewRound([])), [])
  }

  /** Who has won the round, if it is over: a winning blow, else more ki at the turn limit. */
  function RoundWinner(outcome: Outcome, p1Ki: int, p2Ki: int, turnNumber: int): Option<Winner> {
    match outcome
    case P1WinsRound => Some(P1)
    case P2WinsRound => Some(P2)
    case _ =>
      if turnNumber < TURN_LIMIT then None
      else if p1Ki > p2Ki then Some(P1)
      else if p2Ki > p1Ki then Some(P2)
      else Some(Draw)
  }

  function CheckRoundEnd(t: TurnResult, r: RoundState): Option<RoundResult> {
    match RoundWinner(t.outcome, r.p1Ki, r.p2Ki, r.turnNumber)
    case None => None
    case Some(w) => Some(RoundResult(r.roundNumber, w, r.turnNumber, r.p1Ki, r.p2Ki))
  }

  function SumTurns(results: seq<RoundResult>): int {
    if results == [] then 0
    else SumTurns(results[..|results| - 1]) + results[|results| - 1].totalTurns
  }

  function MatchWinner(gs: GameState): Option<Winner> {
    if gs.wonP1 >= ROUNDS_TO_WIN then Some(P1)
    else if gs.wonP2 >= ROUNDS_TO_WIN then Some(P2)
    else if |gs.results| >= MAX_ROUNDS then Some(Draw)
    else None
  }

  function CheckMatchEnd(gs: GameState): Option<MatchResult> {
    match MatchWinner(gs)
    case None => None
    case Some(w) => Some(MatchResult(w, gs.wonP1, gs.wonP2, gs.results, SumTurns(gs.results)))
  }

  function CloseRound(gs: GameState, rr: RoundResult): GameState {
    gs.(
      wonP1 := gs.wonP1 + (if rr.winner == P1 then 1 else 0),
      wonP2 := gs.wonP2 + (if rr.winner == P2 then 1 else 0),
      results := gs.results + [rr],
      current := None)
  }

  /** The match ends, or the next round begins. */
  function AfterRound(closed: GameState, me: Option<MatchResult>): GameState {
    if me.Some? then closed.(status := Completed)
    else closed.(current := Some(NewRound(closed.results)))
  }

  function PlayedRound(r: RoundState, t: TurnResult): RoundState {
    RoundState(r.roundNumber, t.p1After, t.p2After, t.turnNumber, r.history + [t])
  }

  function SubmitTurn(gs: GameState, p1: Action, p2: Action): Result<Submission, EngineError> {
    if gs.status != InProgress then Err(NotInProgress)
    else if gs.current == None then Err(NoActiveRound)
    else
      var r := gs.current.value;
      if !Affordable(p1, r.p1Ki) then Err(CannotAfford(P1))
      else if !Affordable(p2, r.p2Ki) then Err(CannotAfford(P2))
      else
        var t := ResolveTurn(r.turnNumber + 1, p1, p2, r.p1Ki, r.p2Ki);
        var r' := PlayedRound(r, t);
        match CheckRoundEnd(t, r')
        case None => Ok(Submission(gs.(current := Some(r')), t, None, None))
        case Some(rr) =>
          var closed := CloseRound(gs, rr);
          var me := CheckMatchEnd(closed);
          Ok(Submission(AfterRound(closed, me), t, Some(rr), me))
  }

  /** Turns played so far, over all rounds. */
  function TotalTurns(gs: GameState): int {
    SumTurns(gs.results) + (if gs.current.Some? then gs.current.value.turnNumber else 0)
  }

  /** A forfeit abandons the match in favour of the other player. */
  function Forfeit(gs: GameState, forfeiting: Winner): (GameState, MatchResult) {
    var next := gs.(status := Abandoned);
    (next, MatchResult(if forfeiting == P1 then P2 else P1, gs.wonP1, gs.wonP2, gs.results, TotalTurns(gs)))
  }
}
