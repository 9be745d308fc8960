/** Seeing the match from the other chair: swapping the two players everywhere. */
module Mirror {
  import opened Wrappers
  import opened GameRules
  import opened MatchEngine
  import opened EngineInvariants

  function Other(w: Winner): Winner {
    match w
    case P1 => P2
    case P2 => P1
    case Draw => Draw
  }

  function SwapOutcome(o: Outcome): Outcome {
    match o
    case P1WinsRound => P2WinsRound
    case P2WinsRound => P1WinsRound
    case _ => o
  }

  function SwapTurn(t: TurnResult): TurnResult {
    TurnResult(t.turnNumber, t.p2Action, t.p1Action, SwapOutcome(t.outcome),
               t.p2Before, t.p1Before, t.p2After, t.p1After)
  }

  function SwapHistory(h: seq<TurnResult>): (r: seq<TurnResult>)
    ensures |r| == |h|
  {
    seq(|h|, i requires 0 <= i < |h| => SwapTurn(h[i]))
  }

  function SwapResult(r: RoundResult): RoundResult {
    RoundResult(r.roundNumber, Other(r.winner), r.totalTurns, r.finalP2Ki, r.finalP1Ki)
  }

  function SwapResults(rs: seq<RoundResult>): (r: seq<RoundResult>)
    ensures |r| == |rs|
  {
    seq(|rs|, i requires 0 <= i < |rs| => SwapResult(rs[i]))
  }

  function SwapRound(r: RoundState): RoundState {
    RoundState(r.roundNumber, r.p2Ki, r.p1Ki, r.turnNumber, SwapHistory(r.history))
  }

  function SwapState(gs: GameState): GameState {
    GameState(gs.status, gs.wonP2, gs.wonP1,
              if gs.current.Some? then Some(SwapRound(gs.current.value)) else None,
              SwapResults(gs.results))
  }

  function SwapMatch(m: MatchResult): MatchResult {
    MatchResult(Other(m.winner), m.wonP2, m.wonP1, SwapResults(m.results), m.totalTurns)
  }

  function SwapSubmission(s: Submission): Submission {
    Submission(SwapState(s.state), SwapTurn(s.turn),
               if s.round.Some? then Some(SwapResult(s.round.value)) else None,
               if s.matchEnd.Some? then Some(SwapMatch(s.matchEnd.value)) else None)
  }

  function SwapError(e: EngineError): EngineError {
    if e.CannotAfford? then CannotAfford(Other(e.player)) else e
  }

  lemma SwapHistoryTwice(h: seq<TurnResult>)
    ensures SwapHistory(SwapHistory(h)) == h
  {
    assert forall t :: SwapTurn(SwapTurn(t)) == t;
  }

  /** Swapping twice is looking from the original chair again. */
  lemma SwapTwice(gs: GameState)
    ensures SwapState(SwapState(gs)) == gs
  {
    assert SwapResults(SwapResults(gs.results)) == gs.results;
    if gs.current.Some? {
      SwapHistoryTwice(gs.current.value.history);
    }
  }

  lemma {:induction false} SwapSumTurns(rs: seq<RoundResult>)
    ensures SumTurns(SwapResults(rs)) == SumTurns(rs)
  {
    if rs != [] {
      assert SwapResults(rs)[..|rs| - 1] == SwapResults(rs[..|rs| - 1]);
      SwapSumTurns(rs[..|rs| - 1]);
    }
  }

  ghost predicate BothShort(gs: GameState, p1: Action, p2: Action) {
    && gs.status == InProgress && gs.current.Some?
    && !Affordable(p1, gs.current.value.p1Ki) && !Affordable(p2, gs.current.value.p2Ki)
  }

  lemma SwapClosing(gs: GameState, rr: RoundResult)
    requires gs.wonP1 < ROUNDS_TO_WIN && gs.wonP2 < ROUNDS_TO_WIN
    ensures CloseRound(SwapState(gs), SwapResult(rr)) == SwapState(CloseRound(gs, rr))
    ensures var closed := CloseRound(gs, rr);
      var me := CheckMatchEnd(closed);
      && CheckMatchEnd(SwapState(closed)) == (if me.Some? then Some(SwapMatch(me.value)) else None)
  {
    assert SwapResults(gs.results + [rr]) == SwapResults(gs.results) + [SwapResult(rr)];
    SwapSumTurns(gs.results + [rr]);
  }

  lemma SwapAfterRound(closed: GameState, me: Option<MatchResult>)
    ensures AfterRound(SwapState(closed), if me.Some? then Some(SwapMatch(me.value)) else None)
      == SwapState(AfterRound(closed, me))
  {
    assert SwapHistory([]) == [];
  }

  /** One turn, seen from the other chair. */
  lemma SwapOneTurn(r: RoundState, p1: Action, p2: Action)
    ensures var t := ResolveTurn(r.turnNumber + 1, p1, p2, r.p1Ki, r.p2Ki);
      var t' := ResolveTurn(r.turnNumber + 1, p2, p1, r.p2Ki, r.p1Ki);
      var r' := PlayedRound(r, t);
      && t' == SwapTurn(t) && PlayedRound(SwapRound(r), t') == SwapRound(r')
      && CheckRoundEnd(t', SwapRound(r'))
         == (if CheckRoundEnd(t, r').Some? then Some(SwapResult(CheckRoundEnd(t, r').value)) else None)
  {
    var t := ResolveTurn(r.turnNumber + 1, p1, p2, r.p1Ki, r.p2Ki);
    assert SwapOutcome(Resolve(p1, p2)) == Resolve(p2, p1);
    assert SwapHistory(r.history + [t]) == SwapHistory(r.history) + [SwapTurn(t)];
  }

  /** The engine treats the two chairs alike: submitting the swapped actions to the
      swapped match gives the swapped result. The single asymmetry is which player
      is blamed when neither can pay: always the first. */
  lemma SwapCommutes(gs: GameState, p1: Action, p2: Action)
    requires gs.status == InProgress ==> gs.wonP1 < ROUNDS_TO_WIN && gs.wonP2 < ROUNDS_TO_WIN
    ensures SubmitTurn(SwapState(gs), p2, p1) ==
      match SubmitTurn(gs, p1, p2)
      case Ok(s) => Ok(SwapSubmission(s))
      case Err(e) => Err(if BothShort(gs, p1, p2) then e else SwapError(e))
  {
    hide ResolveTurn, PlayedRound, CheckRoundEnd, CloseRound, CheckMatchEnd, AfterRound, SwapResults, SwapTurn,
      SwapMatch, Affordable;
    if SubmitTurn(gs, p1, p2).Ok? {
      var r := gs.current.value;
      SwapOneTurn(r, p1, p2);
      var t := ResolveTurn(r.turnNumber + 1, p1, p2, r.p1Ki, r.p2Ki);
      var end := CheckRoundEnd(t, PlayedRound(r, t));
      if end.Some? {
        SwapClosing(gs, end.value);
        SwapAfterRound(CloseRound(gs, end.value), CheckMatchEnd(CloseRound(gs, end.value)));
      }
    }
  }

  function SwapMoves(moves: seq<(Action, Action)>): (r: seq<(Action, Action)>)
    ensures |r| == |moves|
  {
    seq(|moves|, i requires 0 <= i < |moves| => (moves[i].1, moves[i].0))
  }

  lemma SwapWinner(gs: GameState)
    requires Valid(gs)
    ensures MatchWinner(SwapState(gs)) ==
      match MatchWinner(gs)
      case None => None
      case Some(w) => Some(Other(w))
    ensures gs.status == InProgress ==> gs.wonP1 < ROUNDS_TO_WIN && gs.wonP2 < ROUNDS_TO_WIN
  {}

  lemma SwapStart()
    ensures SwapState(StartMatch()) == StartMatch()
  {
    assert SwapResults([]) == [] && SwapHistory([]) == [];
  }

  /** Whole runs: the swapped submissions lead to the swapped match, so a mirrored
      run has the mirrored winner. */
  lemma {:induction false} SwapRun(moves: seq<(Action, Action)>)
    ensures Play(StartMatch(), SwapMoves(moves)) == SwapState(Play(StartMatch(), moves))
    ensures MatchWinner(Play(StartMatch(), SwapMoves(moves))) ==
      match MatchWinner(Play(StartMatch(), moves))
      case None => None
      case Some(w) => Some(Other(w))
  {
    hide Valid, MatchWinner, SubmitTurn, SwapState, SwapSubmission;
    EveryRun(moves);
    SwapWinner(Play(StartMatch(), moves));
    if moves == [] {
      SwapStart();
    } else {
      var rest, m := moves[..|moves| - 1], moves[|moves| - 1];
      assert SwapMoves(moves)[..|moves| - 1] == SwapMoves(rest);
      SwapRun(rest);
      EveryRun(rest);
      var before := Play(StartMatch(), rest);
      SwapWinner(before);
      SwapCommutes(before, m.0, m.1);
      if SubmitTurn(before, m.0, m.1).Ok? { SwapOfState(SubmitTurn(before, m.0, m.1).value); }
    }
  }

  lemma SwapOfState(s: Submission)
    ensures SwapSubmission(s).state == SwapState(s.state)
  {}

  // ----- the view handed to an agent that is coded as the second player -----

  /** Swapped ki and score, with results left as they are and the history emptied. */
  function AgentView(gs: GameState): GameState {
    gs.(wonP1 := gs.wonP2, wonP2 := gs.wonP1,
        current := if gs.current == None then None else
          var r := gs.current.value;
          Some(RoundState(r.roundNumber, r.p2Ki, r.p1Ki, r.turnNumber, [])))
  }

  /** The agent's view is the fully swapped match except for the history, which is
      handed over separately, and for the winners inside past results: everything
      such an agent reads (ki, score, rounds played, turn) is the swapped one. */
  lemma AgentSeesSwap(gs: GameState)
    ensures var full, seen := SwapState(gs), AgentView(gs);
      && seen.wonP1 == full.wonP1 && seen.wonP2 == full.wonP2
      && |seen.results| == |full.results| && seen.status == full.status
      && seen.current == (if full.current == None then None else Some(full.current.value.(history := [])))
      && (seen.results == full.results <==> forall i :: 0 <= i < |gs.results| ==>
            gs.results[i].winner == Draw && gs.results[i].finalP1Ki == gs.results[i].finalP2Ki)
  {
    var full := SwapState(gs);
    if forall i :: 0 <= i < |gs.results| ==>
      gs.results[i].winner == Draw && gs.results[i].finalP1Ki == gs.results[i].finalP2Ki
    {
      assert gs.results == full.results;
    } else {
      var i :| 0 <= i < |gs.results|
        && !(gs.results[i].winner == Draw && gs.results[i].finalP1Ki == gs.results[i].finalP2Ki);
      assert full.results[i] == SwapResult(gs.results[i]);
    }
  }

  /** Taking the agent's view twice and swapping its history twice gives the match
      back; by itself the view forgets the history and nothing else. */
  lemma ViewTwice(gs: GameState)
    ensures AgentView(AgentView(gs)) ==
      if gs.current == None then gs else gs.(current := Some(gs.current.value.(history := [])))
    ensures AgentView(AgentView(gs)) == gs <==> gs.current == None || gs.current.value.history == []
    ensures gs.current.Some? ==> SwapHistory(SwapHistory(gs.current.value.history)) == gs.current.value.history
  {
    if gs.current.Some? {
      SwapHistoryTwice(gs.current.value.history);
    }
  }

  method MirrorHistory(history: seq<TurnResult>) returns (out: seq<TurnResult>)
    ensures out == SwapHistory(history)
  {
    out := [];
    for i := 0 to |history|
      invariant |out| == i && forall k :: 0 <= k < i ==> out[k] == SwapTurn(history[k])
    {
      out := out + [SwapTurn(history[i])];
    }
  }

  // ----- a whole match between two programs -----

  /** A program reads the match and draws a random number. */
  type Chooser = (GameState, nat) -> Action

  /** Both programs answer every match in progress with an action they can pay for,
      whatever number is drawn. */
  ghost predicate Choosers(first: Chooser, second: Chooser) {
    forall gs, r :: Valid(gs) && gs.status == InProgress ==>
      Affordable(first(gs, r), gs.current.value.p1Ki) && Affordable(second(gs, r), gs.current.value.p2Ki)
  }

  const SAFETY_BOUND := 70

  /** The winner of a match that was played out with these moves, or a draw because the
      safety bound was reached. */
  ghost predicate Reported(winner: Winner, moves: seq<(Action, Action)>) {
    var end := Play(StartMatch(), moves);
    && Accepted(StartMatch(), moves) == |moves|
    && ((end.status == Completed && MatchWinner(end) == Some(winner)) || (|moves| == SAFETY_BOUND && winner == Draw))
  }

  /** Every move is what the two programs answer to the match so far, each with its own draw. */
  ghost predicate ChosenBy(moves: seq<(Action, Action)>, first: Chooser, second: Chooser, draws: nat -> nat) {
    forall i :: 0 <= i < |moves| ==>
      moves[i] == ChosenAt(Play(StartMatch(), moves[..i]), first, second, draws, i)
  }

  function ChosenAt(gs: GameState, first: Chooser, second: Chooser, draws: nat -> nat, i: nat): (Action, Action) {
    (first(gs, draws(2 * i)), second(gs, draws(2 * i + 1)))
  }

  lemma ChosenNext(moves: seq<(Action, Action)>, first: Chooser, second: Chooser, draws: nat -> nat)
    requires ChosenBy(moves, first, second, draws)
    ensures ChosenBy(moves + [ChosenAt(Play(StartMatch(), moves), first, second, draws, |moves|)], first, second, draws)
  {
    hide Play, ChosenAt;
    var more := moves + [ChosenAt(Play(StartMatch(), moves), first, second, draws, |moves|)];
    forall i | 0 <= i < |more| ensures more[i] == ChosenAt(Play(StartMatch(), more[..i]), first, second, draws, i) {
      assert more[..i] == moves[..i];
      if i == |moves| { assert moves[..i] == moves; }
    }
  }

  /** Plays one match turn by turn, at most up to the safety bound. */
  method PlayMatch(first: Chooser, second: Chooser, draws: nat -> nat) returns (winner: Winner)
    requires Choosers(first, second)
    ensures exists moves :: Reported(winner, moves) && ChosenBy(moves, first, second, draws)
  {
    hide SubmitTurn, MatchWinner, Valid, TotalTurns, TurnsLeft, ChosenBy;
    var gs := StartMatch();
    ghost var moves: seq<(Action, Action)> := [];
    EveryRun([]);
    assert ChosenBy(moves, first, second, draws) by { NothingChosen(first, second, draws); }
    for i := 0 to SAFETY_BOUND
      invariant |moves| == i && gs == Play(StartMatch(), moves) && gs.status == InProgress
      invariant Accepted(StartMatch(), moves) == |moves| && ChosenBy(moves, first, second, draws)
    {
      EveryRun(moves);
      ChosenNext(moves, first, second, draws);
      var a1, a2 := first(gs, draws(2 * i)), second(gs, draws(2 * i + 1));
      ChosenTurn(gs, a1, a2);
      assert (moves + [(a1, a2)])[..|moves|] == moves;
      moves := moves + [(a1, a2)];
      var sub := SubmitTurn(gs, a1, a2).value;
      gs := sub.state;
      if sub.matchEnd.Some? {
        assert Reported(sub.matchEnd.value.winner, moves);
        return sub.matchEnd.value.winner;
      }
    }
    assert Reported(Draw, moves);
    return Draw;
  }

  lemma ChosenTurn(gs: GameState, a1: Action, a2: Action)
    requires Valid(gs) && gs.status == InProgress
    requires Affordable(a1, gs.current.value.p1Ki) && Affordable(a2, gs.current.value.p2Ki)
    ensures SubmitTurn(gs, a1, a2).Ok?
    ensures var s := SubmitTurn(gs, a1, a2).value;
      && (s.matchEnd.Some? ==> s.state.status == Completed && MatchWinner(s.state) == Some(s.matchEnd.value.winner))
      && (s.matchEnd == None ==> s.state.status == InProgress)
  {
    SubmitKeepsValid(gs, a1, a2);
  }

  lemma NothingChosen(first: Chooser, second: Chooser, draws: nat -> nat)
    ensures ChosenBy([], first, second, draws)
  {}

  /** The safety bound is never the reason a match stops: every run of accepted
      submissions has at most sixty turns, so what is reported is always the winner of
      a match played out. */
  lemma BoundNeverReached(winner: Winner, moves: seq<(Action, Action)>)
    requires Reported(winner, moves)
    ensures |moves| <= 60 < SAFETY_BOUND
    ensures Play(StartMatch(), moves).status == Completed && MatchWinner(Play(StartMatch(), moves)) == Some(winner)
  {
    EveryRun(moves);
  }

  // ----- two programs change chairs -----

  lemma {:induction false} SwapAccepted(moves: seq<(Action, Action)>)
    ensures Accepted(StartMatch(), SwapMoves(moves)) == Accepted(StartMatch(), moves)
  {
    hide SubmitTurn, SwapState, MatchWinner, Valid;
    if moves != [] {
      var rest, m := moves[..|moves| - 1], moves[|moves| - 1];
      assert SwapMoves(moves)[..|moves| - 1] == SwapMoves(rest);
      SwapAccepted(rest);
      SwapRun(rest);
      EveryRun(rest);
      SwapWinner(Play(StartMatch(), rest));
      SwapCommutes(Play(StartMatch(), rest), m.0, m.1);
    }
  }

  lemma {:induction false} AllAccepted(moves: seq<(Action, Action)>, k: nat)
    requires Accepted(StartMatch(), moves) == |moves| && k < |moves|
    ensures SubmitTurn(Play(StartMatch(), moves[..k]), moves[k].0, moves[k].1).Ok?
    ensures Accepted(StartMatch(), moves[..k]) == k
  {
    var n := |moves| - 1;
    AcceptedAtMost(moves[..n]);
    if k < n {
      assert moves[..n][..k] == moves[..k];
      AllAccepted(moves[..n], k);
    }
  }

  lemma {:induction false} AcceptedAtMost(moves: seq<(Action, Action)>)
    ensures Accepted(StartMatch(), moves) <= |moves|
  {
    if moves != [] { AcceptedAtMost(moves[..|moves| - 1]); }
  }

  /** The programs and their draws determine the moves, as far as they go. */
  lemma {:induction false} SameChoices(moves: seq<(Action, Action)>, more: seq<(Action, Action)>, first: Chooser,
                                       second: Chooser, draws: nat -> nat, k: nat)
    requires ChosenBy(moves, first, second, draws) && ChosenBy(more, first, second, draws)
    requires k <= |moves| && k <= |more|
    ensures moves[..k] == more[..k]
  {
    hide Play, ChosenAt;
    if k > 0 {
      SameChoices(moves, more, first, second, draws, k - 1);
      assert moves[..k] == moves[..k - 1] + [moves[k - 1]] && more[..k] == more[..k - 1] + [more[k - 1]];
    }
  }

  /** So they determine the winner: a completed match takes no further move. */
  lemma SameWinner(winner: Winner, moves: seq<(Action, Action)>, winner': Winner, more: seq<(Action, Action)>,
                  first: Chooser, second: Chooser, draws: nat -> nat)
    requires Reported(winner, moves) && ChosenBy(moves, first, second, draws)
    requires Reported(winner', more) && ChosenBy(more, first, second, draws)
    ensures winner == winner' && moves == more
  {
    hide ChosenBy, Play, Accepted;
    BoundNeverReached(winner, moves);
    BoundNeverReached(winner', more);
    if |moves| <= |more| {
      StopsThere(moves, more, first, second, draws);
    } else {
      StopsThere(more, moves, first, second, draws);
    }
  }

  lemma StopsThere(moves: seq<(Action, Action)>, more: seq<(Action, Action)>,
                   first: Chooser, second: Chooser, draws: nat -> nat)
    requires ChosenBy(moves, first, second, draws) && ChosenBy(more, first, second, draws) && |moves| <= |more|
    requires Play(StartMatch(), moves).status == Completed && Accepted(StartMatch(), more) == |more|
    ensures moves == more
  {
    hide ChosenBy, Play, Accepted;
    SameChoices(moves, more, first, second, draws, |moves|);
    assert moves[..|moves|] == moves && more[..|more|] == more;
    if |moves| < |more| {
      AllAccepted(more, |moves|);
    }
  }

  /** The program that plays from the other chair what this one plays from its own. */
  function FromOtherChair(program: Chooser): Chooser {
    (gs: GameState, r: nat) => program(SwapState(gs), r)
  }

  /** Each program keeps its own draws. */
  function SwapDraws(draws: nat -> nat): nat -> nat {
    n => if n % 2 == 0 then draws(n + 1) else draws(n - 1)
  }

  lemma SwapChosen(moves: seq<(Action, Action)>, first: Chooser, second: Chooser, draws: nat -> nat)
    requires ChosenBy(moves, first, second, draws)
    ensures ChosenBy(SwapMoves(moves), FromOtherChair(second), FromOtherChair(first), SwapDraws(draws))
  {
    hide Play, SwapState;
    var swapped := SwapMoves(moves);
    forall i | 0 <= i < |swapped|
      ensures swapped[i] == ChosenAt(Play(StartMatch(), swapped[..i]), FromOtherChair(second), FromOtherChair(first),
                                     SwapDraws(draws), i)
    {
      assert swapped[..i] == SwapMoves(moves[..i]);
      SwapRun(moves[..i]);
      SwapTwice(Play(StartMatch(), moves[..i]));
      assert moves[i] == ChosenAt(Play(StartMatch(), moves[..i]), first, second, draws, i);
      assert SwapDraws(draws)(2 * i) == draws(2 * i + 1) && SwapDraws(draws)(2 * i + 1) == draws(2 * i);
    }
  }

  /** The chairs do not matter: when two programs change chairs, each seeing the match
      from its own side as before and keeping its draws, the reported winner is the
      other one, that is, the same program. */
  lemma ChairsDoNotMatter(first: Chooser, second: Chooser, draws: nat -> nat,
                          winner: Winner, moves: seq<(Action, Action)>, winner': Winner, moves': seq<(Action, Action)>)
    requires Reported(winner, moves) && ChosenBy(moves, first, second, draws)
    requires Reported(winner', moves')
    requires ChosenBy(moves', FromOtherChair(second), FromOtherChair(first), SwapDraws(draws))
    ensures winner' == Other(winner) && moves' == SwapMoves(moves)
  {
    hide ChosenBy, Play, Accepted, SwapState, MatchWinner;
    BoundNeverReached(winner, moves);
    SwapRun(moves);
    SwapAccepted(moves);
    SwapChosen(moves, first, second, draws);
    assert SwapState(Play(StartMatch(), moves)).status == Completed by { SameStatus(Play(StartMatch(), moves)); }
    assert Reported(Other(winner), SwapMoves(moves));
    SameWinner(winner', moves', Other(winner), SwapMoves(moves), FromOtherChair(second), FromOtherChair(first),
              SwapDraws(draws));
  }

  lemma SameStatus(gs: GameState)
    ensures SwapState(gs).status == gs.status
  {}
}
