/** The session as the object its mutators update in place, and its agreement with the
    pure mutators. */
module SessionObject {
  import opened Wrappers
  import opened GameRules
  import opened MatchEngine
  import opened EngineObject
  import opened Store
  import opened SessionProtocol
  import opened SessionCaptures
  import opened EngineInvariants

  class PvPSession {
    const game: Game
    const player1: Player
    const player2: Player
    var connected: seq<Player>
    var started: bool
    var p1Action: Option<Action>
    var p2Action: Option<Action>

    constructor (first: Player, second: Player)
      ensures View() == NewSession(first, second)
    {
      game := new Game();
      player1, player2 := first, second;
      connected, started, p1Action, p2Action := [], false, None, None;
    }

    function View(): Session
      reads this, game, game.current
    {
      Session(game.View(), player1, player2, connected, started, p1Action, p2Action)
    }

    method HasConnected(pid: Player) returns (found: bool)
      ensures found <==> pid in connected
    {
      for i := 0 to |connected|
        invariant pid !in connected[..i]
      {
        if connected[i] == pid {
          return true;
        }
      }
      return false;
    }

    method MarkConnected(pid: Player)
      modifies this`connected
      ensures connected == SessionProtocol.MarkConnected(old(connected), pid)
      ensures connected == if pid in old(connected) then old(connected) else old(connected) + [pid]
    {
      var present := HasConnected(pid);
      if !present {
        connected := connected + [pid];
      }
    }

    function Opponent(pid: Player): Player {
      if pid == player1 then player2 else player1
    }

    /** Reports whether this is a player coming back to a started match. */
    method HandleConnect(pid: Player) returns (r: Result<bool, Refusal>)
      modifies this`connected
      ensures match Mutate(Connect(pid), old(View()))
              case Err(e) => r == Err(e) && View() == old(View())
              case Ok(s) => r == Ok(old(started) && pid !in old(connected)) && View() == s && pid in connected
      ensures r.Err? <==> pid != player1 && pid != player2
      ensures r.Ok? ==> connected == if pid in old(connected) then old(connected) else old(connected) + [pid]
    {
      if pid != player1 && pid != player2 {
        return Err(Refusal);
      }
      var wasLive := HasConnected(pid);
      var isReconnect := started && !wasLive;
      if !wasLive {
        MarkConnected(pid);
      }
      return Ok(isReconnect);
    }

    /** Kicks the match off once, and only with two players present; reports whether
        this call did, and otherwise how many players it waits for. */
    method Start() returns (shouldStart: bool, waitingFor: nat)
      modifies this`started
      ensures Mutate(SessionProtocol.Start, old(View())) == Ok(View())
      ensures shouldStart <==> !old(started) && started
      ensures started <==> old(started) || |connected| >= 2
      ensures waitingFor == if started then 0 else 2 - |connected|
    {
      shouldStart, waitingFor := false, 0;
      if started {
        return;
      }
      if |connected| < 2 {
        waitingFor := 2 - |connected|;
        return;
      }
      started := true;
      shouldStart := true;
    }

    /** Stores the action in the player's own slot, or, when the other player's action is
        there, clears both slots and hands the pair to the caller, the first player's
        action first; either way it confirms the turn to come. A submission after the
        match, between rounds, by a stranger or too expensive for the player's ki changes
        nothing. */
    method SubmitAction(pid: Player, a: Action) returns (r: Submitted)
      modifies this`p1Action, this`p2Action
      ensures r == Received(old(View()), pid, a)
      ensures Mutate(Submit(pid, a), old(View())) == Ok(View())
      ensures !Rejection(r) <==>
        && game.status == InProgress && game.current != null && (pid == player1 || pid == player2)
        && Cost(a) <= (if pid == player2 then game.current.p2Ki else game.current.p1Ki)
      ensures Rejection(r) ==> unchanged(this)
      ensures r == MatchOver <==> game.status != InProgress
      ensures r == NoRound <==> game.status == InProgress && game.current == null
      ensures r == TooExpensive <==> game.status == InProgress && game.current != null
                                     && Cost(a) > (if pid == player2 then game.current.p2Ki else game.current.p1Ki)
      ensures r.Stored? ==> r.turn == game.current.turnNumber + 1
      ensures r.Stored? && pid == player1 ==> p1Action == Some(a) && p2Action == old(p2Action) == None
      ensures r.Stored? && pid != player1 ==> p2Action == Some(a) && p1Action == old(p1Action) == None
      ensures r.PairTaken? ==>
        r.turn == game.current.turnNumber + 1 && p1Action == None && p2Action == None
      ensures r.PairTaken? && pid == player1 ==> r.p1 == a && Some(r.p2) == old(p2Action)
      ensures r.PairTaken? && pid != player1 ==> Some(r.p1) == old(p1Action) && r.p2 == a
    {
      hide SubmitTurn, SessionProtocol.MarkConnected, Without;
      if game.status != InProgress {
        return MatchOver;
      }
      var cr := game.current;
      if cr == null {
        return NoRound;
      }
      var ki := cr.p1Ki;
      if pid == player2 {
        ki := cr.p2Ki;
      }
      if !Affordable(a, ki) {
        return TooExpensive;
      }
      if pid == player1 {
        p1Action := Some(a);
      } else if pid == player2 {
        p2Action := Some(a);
      } else {
        return Stranger;
      }
      if p1Action.Some? && p2Action.Some? {
        r := PairTaken(cr.turnNumber + 1, p1Action.value, p2Action.value);
        p1Action, p2Action := None, None;
      } else {
        r := Stored(cr.turnNumber + 1);
      }
    }

    method ResolveTurn(p1: Action, p2: Action) returns (out: Result<EngineObject.Report, EngineError>)
      modifies game, game.current
      ensures match Mutate(Resolve(p1, p2), old(View()))
              case Err(_) => out.Err? && View() == old(View())
              case Ok(s) => out.Ok? && View() == s
      ensures match SubmitTurn(old(game.View()), p1, p2)
              case Err(e) => out == Err(e)
              case Ok(sub) => out == Ok(EngineObject.Report(sub.turn, sub.round, sub.matchEnd))
    {
      out := game.SubmitTurn(p1, p2);
    }

    method HandleDisconnect(pid: Player) returns (opponent: Player)
      modifies this`connected
      ensures Mutate(Disconnect(pid), old(View())) == Ok(View())
      ensures opponent == Opponent(pid) == if pid == player1 then player2 else player1
    {
      var filtered: seq<Player> := [];
      for i := 0 to |connected|
        invariant filtered == Without(connected[..i], pid)
      {
        assert connected[..i + 1][..i] == connected[..i];
        if connected[i] != pid {
          filtered := filtered + [connected[i]];
        }
      }
      assert connected[..|connected|] == connected;
      connected := filtered;
      opponent := if pid == player1 then player2 else player1;
    }

    method Forfeit()
      modifies game`status
      ensures Mutate(Abandon, old(View())) == Ok(View())
    {
      game.status := Abandoned;
    }

    /** What the turn timer does when it fires undisturbed: every player without a
        pending action charges, which always completes a pair. */
    method TurnTimeout() returns (taken: Option<(Action, Action)>)
      requires SessionOk(View()) && player1 != player2
      modifies this`p1Action, this`p2Action
      ensures old(View()).game.status != InProgress ==> taken == None && View() == old(View())
      ensures old(View()).game.status == InProgress ==>
        && taken == Some((PendingOr(old(p1Action)), PendingOr(old(p2Action))))
        && View() == old(View()).(p1Action := None, p2Action := None)
    {
      taken := None;
      if game.status != InProgress {
        return;
      }
      ChargeAffordable(View());
      var p1Needs, p2Needs := p1Action == None, p2Action == None;
      if p1Needs {
        var r := SubmitAction(player1, Charge);
        taken := TakenBy(r);
      }
      if p2Needs {
        var r := SubmitAction(player2, Charge);
        taken := TakenBy(r);
      }
    }
  }

  function PendingOr(a: Option<Action>): Action {
    if a.Some? then a.value else Charge
  }

  lemma ChargeAffordable(s: Session)
    requires SessionOk(s) && s.game.status == InProgress
    ensures s.game.current.Some?
    ensures Affordable(Charge, s.game.current.value.p1Ki) && Affordable(Charge, s.game.current.value.p2Ki)
  {
    var r := s.game.current.value;
    ChainRange(r.history, r.p1Ki, r.p2Ki);
  }

  /** A turn for which both players timed out is always played. */
  lemma TimedOutTurnPlays(s: Session)
    requires SessionOk(s) && s.game.status == InProgress
    ensures Mutate(Resolve(Charge, Charge), s).Ok?
    ensures TotalTurns(Mutate(Resolve(Charge, Charge), s).value.game) == TotalTurns(s.game) + 1
  {
    NeverStuck(s.game);
    SessionProtocol.CommitKeeps(Resolve(Charge, Charge), s);
  }
}
