/** The match engine that updates one game object in place, and its agreement
    with the pure step. */
module EngineObject {
  import opened Wrappers
  import opened GameRules
  import opened MatchEngine

  class Round {
    var roundNumber: int
    var p1Ki: int
    var p2Ki: int
    var turnNumber: int
    var history: seq<TurnResult>

    constructor (number: int)
      ensures View() == RoundState(number, 0, 0, 0, [])
    {
      roundNumber, p1Ki, p2Ki, turnNumber, history := number, 0, 0, 0, [];
    }

    function View(): RoundState
      reads this
    {
      RoundState(roundNumber, p1Ki, p2Ki, turnNumber, history)
    }
  }

  datatype Report = Report(turn: TurnResult, round: Option<RoundResult>, matchEnd: Option<MatchResult>)

  class Game {
    var status: Status
    var wonP1: int
    var wonP2: int
    var current: Round?
    var results: seq<RoundResult>

    constructor ()
      ensures View() == StartMatch() && fresh(current)
    {
      status, wonP1, wonP2, results := InProgress, 0, 0, [];
      current := new Round(1);
    }

    function View(): GameState
      reads this, current
    {
      GameState(status, wonP1, wonP2, if current == null then None else Some(current.View()), results)
    }

    method StartNewRound()
      modifies this
      ensures fresh(current) && View() == old(View()).(current := Some(NewRound(old(results))))
    {
      current := new Round(|results| + 1);
    }

    method CheckRoundEnd(t: TurnResult) returns (rr: Option<RoundResult>)
      requires current != null
      ensures rr == MatchEngine.CheckRoundEnd(t, current.View())
    {
      var winner: Option<Winner> := None;
      match t.outcome {
        case P1WinsRound => winner := Some(P1);
        case P2WinsRound => winner := Some(P2);
        case _ =>
          if current.turnNumber >= TURN_LIMIT {
            if current.p1Ki > current.p2Ki {
              winner := Some(P1);
            } else if current.p2Ki > current.p1Ki {
              winner := Some(P2);
            } else {
              winner := Some(Draw);
            }
          }
      }
      if winner == None {
        return None;
      }
      return Some(RoundResult(current.roundNumber, winner.value, current.turnNumber, current.p1Ki, current.p2Ki));
    }

    method CheckMatchEnd() returns (me: Option<MatchResult>)
      ensures me == MatchEngine.CheckMatchEnd(View())
      ensures me.Some? <==> wonP1 >= ROUNDS_TO_WIN || wonP2 >= ROUNDS_TO_WIN || |results| >= MAX_ROUNDS
      ensures me.Some? ==> me.value.wonP1 == wonP1 && me.value.wonP2 == wonP2 && me.value.results == results
    {
      var totalTurns := 0;
      for i := 0 to |results|
        invariant totalTurns == SumTurns(results[..i])
      {
        totalTurns := totalTurns + results[i].totalTurns;
        assert results[..i + 1][..i] == results[..i];
      }
      assert results[..|results|] == results;
      if wonP1 >= ROUNDS_TO_WIN {
        return Some(MatchResult(P1, wonP1, wonP2, results, totalTurns));
      }
      if wonP2 >= ROUNDS_TO_WIN {
        return Some(MatchResult(P2, wonP1, wonP2, results, totalTurns));
      }
      if |results| >= MAX_ROUNDS {
        return Some(MatchResult(Draw, wonP1, wonP2, results, totalTurns));
      }
      return None;
    }

    /** Updates the round, the score and the match in place; on an error nothing changes. */
    method SubmitTurn(p1: Action, p2: Action) returns (out: Result<Report, EngineError>)
      modifies this, current
      ensures current == null || current == old(current) || fresh(current)
      ensures match MatchEngine.SubmitTurn(old(View()), p1, p2)
              case Err(e) => out == Err(e) && View() == old(View())
              case Ok(s) => out == Ok(Report(s.turn, s.round, s.matchEnd)) && View() == s.state
      ensures out.Ok? && out.value.matchEnd.Some? ==>
        var me := out.value.matchEnd.value; me.wonP1 == wonP1 && me.wonP2 == wonP2 && me.results == results
    {
      hide Resolve, KiAfter, RoundWinner, MatchWinner, SumTurns, MatchEngine.CheckMatchEnd, AfterRound;
      if status != InProgress {
        return Err(NotInProgress);
      }
      if current == null {
        return Err(NoActiveRound);
      }
      if !Affordable(p1, current.p1Ki) {
        return Err(CannotAfford(P1));
      }
      if !Affordable(p2, current.p2Ki) {
        return Err(CannotAfford(P2));
      }
      var turnNumber := current.turnNumber + 1;
      var t := ResolveTurn(turnNumber, p1, p2, current.p1Ki, current.p2Ki);
      current.turnNumber := turnNumber;
      current.p1Ki := t.p1After;
      current.p2Ki := t.p2After;
      current.history := current.history + [t];

      var rr := CheckRoundEnd(t);
      var me := None;
      if rr.Some? {
        me := FinishRound(rr.value);
      }
      return Ok(Report(t, rr, me));
    }

    /** The round-end branch: books the result, then completes the match or opens the next round. */
    method FinishRound(rr: RoundResult) returns (me: Option<MatchResult>)
      modifies this
      ensures current == null || fresh(current)
      ensures me == MatchEngine.CheckMatchEnd(CloseRound(old(View()), rr))
      ensures View() == AfterRound(CloseRound(old(View()), rr), me)
      ensures results == old(results) + [rr]
      ensures wonP1 == old(wonP1) + (if rr.winner == P1 then 1 else 0)
      ensures wonP2 == old(wonP2) + (if rr.winner == P2 then 1 else 0)
      ensures me.Some? ==> me.value.wonP1 == wonP1 && me.value.wonP2 == wonP2 && me.value.results == results
    {
      match rr.winner {
        case P1 => wonP1 := wonP1 + 1;
        case P2 => wonP2 := wonP2 + 1;
        case Draw =>
      }
      results := results + [rr];
      current := null;
      me := CheckMatchEnd();
      if me.Some? {
        status := Completed;
      } else {
        StartNewRound();
      }
    }
  }
}
