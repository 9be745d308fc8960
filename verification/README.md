# Ki Clash: solver, engine and session protocol

Ki Clash is a two-player game of simultaneous moves. Each turn both players pick one of
five actions that cost or earn ki; a round ends with a winning blow or after twenty turns
on the ki then held, and a match is a best of three rounds. This project models three
parts of the repository and proves properties of them.

**The Grandmaster opponent.** A round is solved offline by backward induction: every state
(own ki, other's ki, turn) is a constant-sum matrix game, solved exactly by a linear
program or approximately by a hand-written regret-matching loop. The match is solved on
top of the round values. At run time a best reply to a model of the opponent is blended
into the solved mix, a noise floor is added, and a certain finish is taken at once. The
theorems hold for all mixed opponents that may use the whole history, all payoff units and
all tables, with `d` the error of the stage solver: `d = 0` for an exact linear program,
and `d` discharged from the number of iterations for the loop (`RegretMatching`,
`ZeroSum`); `u` is the error of rounding draw weights, half a millionth in the code
(`Strategies`). All numbers are exact reals.

**The match engine**, as a pure state machine (`MatchEngine`) and as an object updated in
place (`EngineObject`) that is proved to compute the same step. The solver's game is
proved to be the engine's game (`EngineGuarantee`), so the match guarantee is a statement
about matches on the engine.

**The two-player session protocol** over an optimistic-concurrency store: any number of
calls interleave their watch, read and conditional write (`Store`), the session mutators
are what they commit (`SessionProtocol`, `SessionObject`), and a ledger follows every
accepted submission to the turn it feeds, or to what became of it (`SessionLedger`).

## Modules

| module | what it models |
|---|---|
| `Wrappers` | optional values and results |
| `GameRules`, `MatchEngine` | actions, outcomes, ki, the match as a step function |
| `EngineInvariants`, `EngineObject`, `Mirror` | what every run keeps, the in-place engine, the player swap and the tournament loop |
| `Vectors`, `MatrixGame` | exact vectors and matrices; guarantees, saddle points, change of units, player swap |
| `RegretMatching`, `ZeroSum` | the self-play loop with its convergence, and the solver facade |
| `Inequalities`, `Minimax` | linear inequalities by elimination; every game has an exact saddle point |
| `StageGame`, `RoundSolver`, `RoundGuarantee` | one turn as a matrix game, the solved round, what playing it or a share of it guarantees |
| `DrawWeights`, `FairFloor` | how a round's worth depends on what a draw is worth, and when one half can be secured |
| `MatchSolver`, `Strategies`, `EngineGuarantee` | the match induction, the tables built for its rounded weights, and the guarantee for matches on the engine |
| `KeptShares` | the greatest share of a guarantee that a way of playing keeps |
| `OpponentModel`, `Exploit`, `Blending`, `Compounding` | the opponent model, the exploitation layer, when blending is as cheap as documented and when it is not |
| `LateTurns`, `AgentCost` | the last two turns solved exactly, and a recorded round in which the agent's own replies cost more than documented |
| `Decision`, `Agent` | the distribution played at run time, the decision procedure, and what exploiting keeps of the guarantees |
| `Store`, `SessionProtocol`, `SessionCaptures`, `SessionLedger`, `SessionObject` | optimistic concurrency, the session mutators, what a call reports after lost attempts, the fate of submissions, the in-place session |

## Where the code and its documentation differ

The model follows the code.

- `model_opponent` documents full trust in the same-ki signal at three samples; the ramp in the code reaches it at two (`OpponentModel.FullTrust`).
- `exploit.py` presents `eps` as the worst-case round-value loss of shifting weight `eps` onto another strategy. For any strategy handed to `blend` that holds whenever the solved value times the share given up is at most `eps` (`Blending.CheapEnough`, for the agent's own weights `AgentCost.ExploitingCheap`), so always for one blended turn (`Blending.OneBlendedTurn`). It fails over two turns, for an arbitrary strategy (`Compounding.BoundHereExactlyWhen`) and also for the agent's own best replies with its own weights: `AgentCost.ExploitingCostsMore` has a round recorded by the engine, the exact cost, and the exact weights for which it exceeds the bound. The entropy measure, which is not modelled, puts both models of that round at about 0.23, and the weights at about 0.24, where the cost is about 0.245. In positions that are won the agent's replies concede next to nothing (`Decision.ReplySafeWhenWon`). What it keeps over rounds and matches is a product over the turns (`Agent.AgentRoundKeeps`, `Agent.AgentMatchKeeps`).
- The floor of one half per round against any opponent, stated there without qualification, holds exactly for the rounds whose draw is worth at least one half (`FairFloor.HalfExactlyWhen`), which are the rounds in which the player is not leading (`FairFloor.HalfByScore`): leading 1-0 before the third round a draw is worth nothing. `DrawWeights.RoundFloor` has the floor for every draw weight and solver error.
- The Go and Python comments describe the pair handed to the resolver as the one taken by the commit. The variables that carry it, and the validation error, survive an attempt whose write was lost. `SessionCaptures.ResolvesWhatItTook` says exactly when they agree, `SessionCaptures.StaleCapture` builds the runs in which they do not, and the ledger follows those turns too (`SessionLedger.CleanExactlyWhen`, `SessionLedger.StaleTurnPlayed`).
- The Go `start` is documented as kicking off the first turn once. Its `shouldStart` survives a lost attempt in the same way, so two calls can both report the start and both start the turn timer (`SessionCaptures.StartReportedTwice`), although only one commit makes it (`SessionProtocol.StartedOnce`); `SessionCaptures.StartsWhatItSet` says exactly when the report is true.
- A call of the Go store returns a fresh load, not the state it committed, and can report a missing session after having committed (`Store.CommittedYetMissing`, exactly when: `Store.MissingExactlyWhen`); the Python call returns the committed state.
- The Python `start` sets started without waiting for both players, and its disconnect does not remove the player, and its `handle_connect` marks any caller as connected, a stranger included. The session theorems are about the Go mutators.
- Taking a pair and playing it are separate transactions, so a pair can be lost (`SessionLedger.PairCanBeLost`): `SessionLedger.PlayedExactlyWhen` and `SessionLedger.LostOnlyAfterTurn` say exactly when. The forfeit check and its write are separate too, so a match that was completed in between is marked abandoned all the same (`SessionProtocol.FinishedCanBeAbandoned`, exactly when: `SessionProtocol.FinishedExactlyWhen`).

## Model

| member | source | states |
|---|---|---|
| `GameRules.PaymentIsExact` | app/core/game_engine/outcome_matrix.py:84-113 | an affordable action is paid exactly: the lower clamp never fires and the cap only swallows the gain of a charge made at the cap |
| `GameRules.ResolveCases` | app/core/game_engine/outcome_matrix.py:19-68 | who wins: a round is won exactly by the action that beats the other (attack over charge; energy wave over charge, block and attack); equal blows clash, teleports dodge blows, blocks stop attacks, on either side, and the rest is neutral |
| `EngineInvariants.KiConserved` | app/core/game_engine/outcome_matrix.py:116-149 | along any round, for both players: ki spent + ki held + charges wasted at the cap = number of charges |
| `EngineInvariants.ChainForwards` | app/core/game_engine/engine.py:103-116 | the recorded history is a chain: turn i is numbered i + 1, starts from the ki the previous turn left (the first from 0), and every past action could be paid for |
| `EngineInvariants.ChainRange` | app/core/game_engine/types.py:112-119 | ki stays in 0..10 at every point of a round |
| `EngineInvariants.SubmitKeepsValid` | app/core/game_engine/engine.py:63-138 | one accepted turn keeps every match invariant, is counted once in the total, uses up part of a decreasing measure, and completes the match exactly when it reports a match result |
| `EngineInvariants.SubmitReportsRound` | app/core/game_engine/engine.py:103-136 | the report of an accepted turn: the turn as played; the round is over exactly after a winning blow or at turn 20, and its result has the turns played, the ki held by each player at the end, and the winner by blow or else by ki, and is booked last; otherwise nothing but the running round changes |
| `EngineInvariants.SubmitReportsMatch` | app/core/game_engine/engine.py:220-259 | the match is over exactly when a player has two rounds or three are played; then the report gives each player the rounds counted for them in the results, all results, all turns, and the player with two rounds as winner or nobody; otherwise the next round starts from nothing |
| `EngineInvariants.SubmitRefuses` | app/core/game_engine/engine.py:86-101 | a submission to a match in play is refused exactly when a player cannot pay, the first such player being named; outside of play every submission is refused |
| `EngineInvariants.RoundClosed` | app/core/game_engine/engine.py:122-136 | closing a round books its winner, and either completes the match or opens the next round with ki 0 |
| `EngineInvariants.EveryRun` | app/core/game_engine/engine.py:63-138 | after every list of submissions, accepted or refused: at most 3 rounds of at most 20 turns, wins counted from the results, total turns = accepted submissions, at most 60 of them, and the reload constraints hold |
| `EngineInvariants.ValidReloads` | app/core/game_engine/types.py:112-141 | every state that satisfies the invariants passes the field constraints checked when a stored state is reloaded |
| `EngineInvariants.ForfeitKeepsValid` | app/core/game_engine/engine.py:140-171 | a forfeit by player 1 or 2 abandons the match, keeps the invariants, and reports the other player as winner with the wins, the rounds and the turns played, those of the round in progress included |
| `EngineInvariants.NeverStuck` | app/core/game_engine/engine.py:86-101 | a valid match in progress always accepts some pair of actions |
| `EngineObject.Game.SubmitTurn` | go-server/engine.go:99-144 | the version that updates one object in place computes exactly the pure step, and changes nothing on an error; a match report carries the score and the results of the object |
| `EngineObject.Game.FinishRound` | go-server/engine.go:125-141 | the round-end branch appends the result, gives the winner one round more, and completes the match or starts a new round, as the pure step does |
| `EngineObject.Game.CheckRoundEnd` | go-server/engine.go:146-175 | agrees with the pure decision who won the round, if it is over |
| `EngineObject.Game.CheckMatchEnd` | go-server/engine.go:177-213 | agrees with the pure decision who won the match, the loop summing the turns of all rounds; the report carries each player's own round wins and all results |
| `EngineObject.Game.StartNewRound` | go-server/engine.go:86-94 | a fresh numbered round with ki 0 and an empty history, everything else unchanged |
| `Mirror.SwapHistoryTwice` | scripts/grandmaster_tournament.py:71-87 | mirroring a turn history twice gives it back |
| `Mirror.SwapCommutes` | app/core/game_engine/engine.py:63-138 | the engine treats both chairs alike: swapped actions on the swapped match give the swapped result; the one asymmetry is that player 1 is blamed when neither can pay |
| `Mirror.SwapRun` | scripts/grandmaster_tournament.py:44-87 | mirrored runs of any length lead to the mirrored match and the mirrored winner |
| `Mirror.AgentSeesSwap` | scripts/grandmaster_tournament.py:44-62 | the view handed to an agent coded as player 2 is the swapped match in everything it reads; exactly when it differs inside past results |
| `Mirror.ViewTwice` | scripts/grandmaster_tournament.py:44-62 | viewing the view again gives back the match except for the history of the running round, which the view empties |
| `Mirror.MirrorHistory` | scripts/grandmaster_tournament.py:71-87 | the appending loop returns the history with every turn swapped |
| `Mirror.PlayMatch` | scripts/grandmaster_tournament.py:117-131 | for all programs that choose affordable actions from the match and a tape of random draws, the match loop reports the winner of a completed run of the engine in which every move is what the two programs answered to the match so far, or a draw at the safety bound |
| `Mirror.SameWinner` | scripts/grandmaster_tournament.py:117-131 | the two programs and their draws determine the moves and the winner reported |
| `Mirror.ChairsDoNotMatter` | scripts/grandmaster_tournament.py:89-131 | when two programs change chairs, each seeing the match from its own side as before and keeping its draws, the moves are swapped and the same program wins |
| `Mirror.BoundNeverReached` | scripts/grandmaster_tournament.py:117-131 | the safety bound of 70 turns is never what ends a match: whatever is reported is the winner of a completed match of at most 60 turns |
| `MatrixGame.Normalize` | app/core/ai_opponent/grandmaster/matrix_game.py:37-52 | for all weights, negative or zero ones included, the result is a mixed strategy |
| `MatrixGame.NormalizeProportional` | app/core/ai_opponent/grandmaster/matrix_game.py:37-52 | if some weight is positive, every probability times the sum of the positive parts is the positive part of its weight |
| `MatrixGame.NormalizeUniform` | app/core/ai_opponent/grandmaster/matrix_game.py:37-52 | if none is, the result is uniform |
| `MatrixGame.ValueUnique` | app/core/ai_opponent/grandmaster/matrix_game.py:188-218 | two saddle points of one game, up to errors d and d', have values at most d + d' apart; exact ones the same value |
| `RegretMatching.RegretBound` | app/core/ai_opponent/grandmaster/matrix_game.py:124-178 | with payoffs in [0, 1], after T iterations the squared positive regrets sum to at most T n for the rows and T m for the columns |
| `RegretMatching.GapIsRegret` | app/core/ai_opponent/grandmaster/matrix_game.py:188-218 | T times the gap of the averaged strategies is exactly the largest row regret plus the largest column regret |
| `RegretMatching.ValueBetween` | app/core/ai_opponent/grandmaster/matrix_game.py:180-185 | the returned value lies between what the row mix guarantees and what the column mix concedes |
| `RegretMatching.Converges` | app/core/ai_opponent/grandmaster/matrix_game.py:124-185 | after T iterations with T d^2 >= 2 (n + m) the result is a saddle point up to d |
| `RegretMatching.ApproximateMinimax` | app/core/ai_opponent/grandmaster/matrix_game.py:124-185 | for every game with payoffs in [0, 1] and every d > 0 the loop finds a saddle point up to d |
| `Minimax.ExactMinimax` | app/core/ai_opponent/grandmaster/matrix_game.py:55-121 | every game has an exact saddle point: of the inequalities that define one, no combination is absurd |
| `Minimax.ExactSolverExists` | app/core/ai_opponent/grandmaster/matrix_game.py:55-121 | so the contract assumed of the linear program can be met, and with it the error d = 0 |
| `Inequalities.Alternative` | app/core/ai_opponent/grandmaster/matrix_game.py:55-121 | every finite system of linear inequalities has a solution or a non-negative combination that is absurd |
| `RegretMatching.AffineRun` | app/core/ai_opponent/grandmaster/matrix_game.py:124-178 | in other payoff units the loop's strategies are the same at every iteration and its regrets are scaled |
| `RegretMatching.ConvergesInRange` | app/core/ai_opponent/grandmaster/matrix_game.py:124-185 | for payoffs between any lo < hi the result is a saddle point up to (hi - lo) d |
| `RegretMatching.MirroredRun` | app/core/ai_opponent/grandmaster/matrix_game.py:157-178 | run on 1 - transpose(A), every running vector of the loop is at every iteration the other player's vector of the run on A |
| `RegretMatching.MirroredSolve` | app/core/ai_opponent/grandmaster/matrix_game.py:180-185 | so the results are the swapped strategies and one minus the value |
| `RegretMatching.PlayOnce` | app/core/ai_opponent/grandmaster/matrix_game.py:159-178 | the loop body over four arrays updated in place is one step of the recurrence |
| `RegretMatching.SolveRegretMatching` | app/core/ai_opponent/grandmaster/matrix_game.py:124-185 | the in-place loop returns the solution the theorems above are about |
| `ZeroSum.SolveZeroSum` | app/core/ai_opponent/grandmaster/matrix_game.py:221-264 | the facade with its one-row and one-column cases returns the solution the theorems below are about |
| `ZeroSum.FacadeSolves` | app/core/ai_opponent/grandmaster/matrix_game.py:221-264 | on every game of any size and any payoff range, its row strategy and value are one side of a saddle point, exact for the linear program and, for the loop, up to the payoff range times d once T d^2 >= 2 (n + m) |
| `ZeroSum.FacadeMirror` | app/core/ai_opponent/grandmaster/matrix_game.py:221-264 | its value of 1 - transpose(A) is one minus its value of A, for every shape and both engines |
| `ZeroSum.DefaultIterations` | app/core/ai_opponent/grandmaster/matrix_game.py:221-227 | the default 50000 iterations bound the error by 0.02 |
| `StageGame.AffordableCases` | app/core/ai_opponent/grandmaster/transition.py:83-92 | the affordable actions at every ki, in canonical order |
| `StageGame.StageMirror` | app/core/ai_opponent/grandmaster/transition.py:136-220 | the opponent's stage matrix with complementary leaves and values is 1 - transpose of mine |
| `StageGame.StageAffine` | app/core/ai_opponent/grandmaster/transition.py:136-220 | raw leaves W, D, L with D = L + (W - L) lam give the lam-matrix in those units |
| `StageGame.StageRange` | app/core/ai_opponent/grandmaster/transition.py:136-220 | with continuation values in [0, 1] every stage payoff is in [0, 1] |
| `StageGame.SpreadLegal` | app/core/ai_opponent/grandmaster/solver.py:110-114 | a mix over the affordable actions written into a vector over all five stays a distribution with no mass on unaffordable actions |
| `RoundSolver.ValueUnfolds` | app/core/ai_opponent/grandmaster/solver.py:97-113 | the backward induction closes: every value solves the stage built from the finished table |
| `RoundSolver.SolveRoundTable` | app/core/ai_opponent/grandmaster/solver.py:76-116 | the nested loops fill every cell of both arrays with the solved value and the stored mix of its state |
| `RoundSolver.SolveState` | app/core/ai_opponent/grandmaster/solver.py:107-114 | one cell: build the matrix from the layer already filled, solve it, spread the mix |
| `RoundSolver.ValueRange` | app/core/ai_opponent/grandmaster/solver.py:405-449 | every value of a solved round is in [0, 1] |
| `RoundSolver.MixLegal` | app/core/ai_opponent/grandmaster/solver.py:405-449 | every solved mix is a distribution over the affordable actions |
| `RoundSolver.ConstantSum` | app/core/ai_opponent/grandmaster/solver.py:451-466 | V_lam(a, b, t) + V_{1-lam}(b, a, t) = 1 for all lam, states and turns, whichever engine solves the stages |
| `RoundSolver.RoundStartSymmetric` | app/core/ai_opponent/grandmaster/solver.py:119-128 | R(lam) is in [0, 1], R(lam) + R(1 - lam) = 1, and R(1/2) = 1/2 |
| `RoundSolver.AffineInvariance` | app/core/ai_opponent/grandmaster/solver.py:16-24 | any exact table for raw leaves W > L and D is the lam-table in those units at every state, and saddle points of the lam-stages are saddle points of the raw stages |
| `RoundSolver.ExactSolverExactTable` | app/core/ai_opponent/grandmaster/solver.py:76-116 | with the exact engine the solved round is such an exact table, for any leaves |
| `RoundGuarantee.TableGuarantee` | app/core/ai_opponent/grandmaster/solver.py:76-116 | playing sigma of the current state at every turn earns at least V - (21 - turn) d in any units, against every mixed opponent who may use the whole history; at least V with the exact engine |
| `RoundGuarantee.RoundBound` | app/core/ai_opponent/grandmaster/exploit.py:1-20 | the general form: keeping a share of the solved mix in every situation, or finishing, keeps of the stake any share that the product of these shares sustains along every way the round can go on |
| `RoundGuarantee.FairRound` | app/core/ai_opponent/grandmaster/exploit.py:3-5 | from the start of a round whose draw is worth one half at least 1/2 - 20 d against any opponent |
| `DrawWeights.DrawWeightBounds` | app/core/ai_opponent/grandmaster/solver.py:119-128 | the value of every state is monotone and 1-Lipschitz in the draw weight, up to 2 d per remaining turn; exactly so with the exact engine |
| `DrawWeights.RoundStartRange` | app/core/ai_opponent/grandmaster/solver.py:119-128 | R(lam) lies between 1/2 and lam, up to 40 d |
| `DrawWeights.RoundFloor` | app/core/ai_opponent/grandmaster/exploit.py:3-5 | table play from the start of a round earns at least the lesser of 1/2 and lam, less 60 d, against any opponent: the documented floor of 1/2 for every draw weight of at least 1/2 |
| `FairFloor.NothingSecuresHalf` | app/core/ai_opponent/grandmaster/exploit.py:3-5 | where a draw is worth less than one half no way of playing secures one half: against the opponent who plays the same way it earns strictly less |
| `FairFloor.HalfExactlyWhen` | app/core/ai_opponent/grandmaster/exploit.py:3-5 | with the exact engine the table secures one half against every opponent if and only if lam >= 1/2, and some way of playing does if and only if the same holds |
| `FairFloor.HalfByScore` | app/core/ai_opponent/grandmaster/exploit.py:3-5 | with the exact engine, the table of a score's draw weight secures one half if and only if the player is not leading; leading 1-0 before the third round that weight is 0 |
| `DrawWeights.RoundedWeight` | app/core/ai_opponent/grandmaster/solver.py:208-229 | playing the table of a draw weight rounded by at most u in a round with the exact one costs at most 2 u, less 3 d per remaining turn |
| `RoundGuarantee.TableAt` | app/core/ai_opponent/grandmaster/table.py:177-198 | for every lookup, in or out of range, the clamped entry is a distribution over the actions affordable at the clamped ki, and on states in range the solved mix |
| `MatchSolver.MatchWellFormed` | app/core/ai_opponent/grandmaster/solver.py:157-205 | for every round oracle with values in [0, 1] and R(x) + R(1 - x) = 1, at all eight scores: lam is in [0, 1] and realizes the worth of a draw, U(my, opp, r) + U(opp, my, r) = 1, and U(0, 0, 0) = 1/2 |
| `MatchSolver.StakesFromOrder` | app/core/ai_opponent/grandmaster/solver.py:178-192 | the worth of a round lies between losing and winning it, and the degenerate branch is taken only when a draw is worth the same too |
| `MatchSolver.ThirdRound` | app/core/ai_opponent/grandmaster/solver.py:468-474 | the deciding round: U(1, 1, 2) = 1/2 and U(1, 0, 2) + U(0, 1, 2) = 1 |
| `MatchSolver.DecidingWeights` | app/core/ai_opponent/grandmaster/solver.py:178-192 | before the third round the draw weight is 0 for the player leading 1-0 and 1 for the other |
| `MatchSolver.WeightByStanding` | app/core/ai_opponent/grandmaster/solver.py:157-205 | at every score, the draw weight is at least 1/2 if and only if the player is not leading, as soon as a round whose draw is lost is worth less than 1/2 |
| `MatchSolver.ReachableScores` | app/core/ai_opponent/grandmaster/transition.py:256-274 | enumerates each pre-round score exactly once and nothing else |
| `MatchSolver.MatchInduction.Evaluate` | app/core/ai_opponent/grandmaster/solver.py:173-199 | the memoized recursion returns the worth of the score and keeps its three dictionaries consistent |
| `MatchSolver.MatchInduction.Run` | app/core/ai_opponent/grandmaster/solver.py:157-205 | both result dictionaries end up with exactly the eight pre-round scores and their worth and draw weight |
| `EngineGuarantee.SubmitIsStage` | app/core/ai_opponent/grandmaster/transition.py:107-187 | for every match in progress one engine turn is one cell of player 2's stage game: the matching leaf when the round ends, the continuation at the engine's next ki and turn when it does not |
| `EngineGuarantee.ScoreBound` | app/core/ai_opponent/grandmaster/solver.py:157-205 | at every state of a match on the engine, keeping a share of the solved mix in every situation, or finishing the round, keeps of the state's floor any share that the product of these shares sustains along every way the match can go on, against every opponent |
| `EngineGuarantee.MatchBoundFrom` | app/core/ai_opponent/grandmaster/solver.py:157-205 | before any round such play earns that share of U(score) less the errors to come |
| `EngineGuarantee.MatchGuarantee` | app/core/ai_opponent/grandmaster/solver.py:157-205 | a whole best-of-three on the engine with the table of the rounded weight of the current score at every turn has expected score at least 1/2 - 60 d - 3 u against every history-dependent opponent, u being the error of the rounding; at least 1/2 with the exact engine and exact weights |
| `EngineGuarantee.MatchGuaranteeFrom` | app/core/ai_opponent/grandmaster/solver.py:157-205 | before any round the expected score is at least U(score), less 20 d + u for each round still to come |
| `Strategies.SixRounds` | app/core/ai_opponent/grandmaster/solver.py:222 | rounding to six decimals, ties to even, moves a weight by at most half a millionth and sends 1 - lam to one minus what it sends lam to |
| `Strategies.SixDecimals` | app/core/ai_opponent/grandmaster/solver.py:222 | a rounded weight is a whole number of millionths, none is nearer, and of two that are equally near it is the even one |
| `Strategies.RoundValueIsOracle` | app/core/ai_opponent/grandmaster/solver.py:208-229 | the round values of tables solved for rounded weights meet what the match induction needs of them |
| `Strategies.AddScore` | app/core/ai_opponent/grandmaster/solver.py:322-338 | one score gets its rounded weight and the cached or newly solved table of it |
| `Strategies.BuildFullStrategy` | app/core/ai_opponent/grandmaster/solver.py:303-338 | the strategy holds exactly the eight scores, each with its rounded draw weight and a key to the solved table of that weight, and no other table |
| `Strategies.TableFor` | app/core/ai_opponent/grandmaster/table.py:128-174 | the lookup of table and weight by score returns those of the score, and of the opening score for an unknown one |
| `OpponentModel.ModelIsDistribution` | app/core/ai_opponent/grandmaster/exploit.py:43-135 | for every history the model is a distribution over the affordable actions giving each at least 0.3 of its uniform share |
| `OpponentModel.ModelOpponent` | app/core/ai_opponent/grandmaster/exploit.py:43-135 | the two counting passes and the mixing compute that model, which `OpponentModel.ModelInNumbers` gives in closed form; every affordable action gets at least 0.3 / k |
| `OpponentModel.ModelInNumbers` | app/core/ai_opponent/grandmaster/exploit.py:90-135 | the model of any history, uniform before the first turn: 0.7 of the observed share plus 0.3 / k for each affordable action, rescaled; observed is the share among the last ten turns weighted by 0.8 to the age, half of it and half of the same-ki share after one same-ki turn, and the same-ki share alone from two, weighted by 0.8 to the number of later same-ki turns |
| `OpponentModel.OldTurnForgotten` | app/core/ai_opponent/grandmaster/exploit.py:97-118 | a turn older than ten turns and played at another ki does not change the model |
| `OpponentModel.FullTrust` | app/core/ai_opponent/grandmaster/exploit.py:120-124 | the same-ki signal is fully trusted if and only if there are at least two samples |
| `OpponentModel.CountRecent` | app/core/ai_opponent/grandmaster/exploit.py:97-104 | the dictionary and the weight after the first pass are the decayed counts of the last ten turns |
| `OpponentModel.CountSameKi` | app/core/ai_opponent/grandmaster/exploit.py:106-118 | the same for every turn at the present ki, with the decay counting only those turns |
| `OpponentModel.SameKiSignalComplete` | app/core/ai_opponent/grandmaster/exploit.py:106-121 | on histories recorded by the engine the same-ki signal loses no mass: it is a distribution itself |
| `OpponentModel.WindowSignalComplete` | app/core/ai_opponent/grandmaster/exploit.py:97-104 | on any history the windowed signal sums to one if and only if every action of the last ten turns can still be paid for |
| `OpponentModel.WindowSignalLosesMass` | app/core/ai_opponent/grandmaster/exploit.py:97-104 | so it can lose mass on a history recorded by the engine: after charging and attacking it sums to less than one |
| `Exploit.BestMixOptimal` | app/core/ai_opponent/grandmaster/exploit.py:208-218 | the best reply is a distribution, plays exactly the actions within 1e-9 of the best, and no mix whatsoever earns more than 1e-9 more |
| `Exploit.ExpectedPayoff` | app/core/ai_opponent/grandmaster/exploit.py:199-207 | the inner loop, skipping opponent actions without mass, is the action's payoff against the model |
| `Exploit.BestResponse` | app/core/ai_opponent/grandmaster/exploit.py:167-218 | the loops return that best reply, ties split, as a vector over the five actions |
| `Exploit.BlendLegal` | app/core/ai_opponent/grandmaster/exploit.py:221-232 | a blend of two legal vectors is legal |
| `Exploit.BlendAgainstModel` | app/core/ai_opponent/grandmaster/exploit.py:221-232 | against the modelled opponent blending never costs more than eps 1e-9, whatever mix is blended |
| `Exploit.AdaptiveEps` | app/core/ai_opponent/grandmaster/exploit.py:235-295 | the weight is the adaptive weight for the score, the evidence and the bias, and lies in [0, 0.85] |
| `Exploit.EpsByScore` | app/core/ai_opponent/grandmaster/exploit.py:272-295 | the weight in numbers at every pre-round score: 0.05 plus 0.8 of the bias scaled by a third per turn up to three, 0.1 more when trailing and 0.1 less when leading, 0.05 less once anybody has a round, within [0, 0.85] |
| `Exploit.EpsMonotone` | app/core/ai_opponent/grandmaster/exploit.py:276-295 | it never shrinks with more bias or more evidence, is never larger for the leader than for the trailer, and stays at most 0.15 against an unpredictable opponent |
| `Exploit.AddNoise` | app/core/ai_opponent/grandmaster/exploit.py:298-333 | the in-place raising, rescaling and fallback compute the noised distribution, for every list of actions given, a repeated action being raised once for each time it is listed |
| `Exploit.NoiseOnLegal` | app/core/ai_opponent/grandmaster/exploit.py:298-333 | on a legal distribution the noise gives a legal one, in which every affordable action has at least 0.02 and every action keeps the share 1 - 0.02 n |
| `Exploit.NoiseFallback` | app/core/ai_opponent/grandmaster/exploit.py:320-333 | whatever vector comes in, noise over a non-empty list of different actions gives total mass one; with nothing left to rescale, equal shares for the listed actions |
| `Exploit.NoisedAt` | app/core/ai_opponent/grandmaster/exploit.py:298-333 | entry by entry: the share 1 - 0.02 n of what it was, and 0.02 on top for each affordable action |
| `Decision.FinisherExact` | app/core/ai_opponent/grandmaster/policy.py:26-47 | some affordable action beats every legal reply exactly when ki >= 3 and the opponent has 0, and then it is the energy wave |
| `Decision.GuaranteedFinisher` | app/core/ai_opponent/grandmaster/policy.py:26-47 | the search returns that action or none |
| `Decision.FinisherWorthOne` | app/core/ai_opponent/grandmaster/policy.py:26-47 | where the finisher exists the solved value is already 1, up to d |
| `Decision.FinisherRealizes` | app/core/ai_opponent/grandmaster/policy.py:139-143 | taking it has the worth of a won round, whatever is played otherwise |
| `Decision.CertainFinishWins` | app/core/ai_opponent/grandmaster/policy.py:145-147 | so at every state where an affordable action beats all replies the run-time policy is worth exactly a won round, for all replies, weights, leaves and opponents |
| `Decision.FinalKeepsShare` | app/core/ai_opponent/grandmaster/policy.py:50-91 | the final distribution is legal, gives every affordable action at least 0.02, and keeps the share (1 - eps)(1 - 0.02 n) of the solved mix |
| `Decision.FinalExploits` | app/core/ai_opponent/grandmaster/policy.py:50-91 | the final distribution in numbers: each affordable action has (1 - 0.02 n)((1 - eps) gto + eps br) + 0.02 and no other action is played |
| `Decision.FinalAgainstModel` | app/core/ai_opponent/grandmaster/policy.py:50-91 | against the modelled opponent it earns at least 1 - 0.02 n of the blend of what the solved mix earns and of what any mix could earn less 1e-9, plus 0.02 of the earnings of each affordable action |
| `Decision.AgentAgainstModel` | app/core/ai_opponent/grandmaster/policy.py:50-91 | so, whatever the history, the agent earns against its model at least (1 - 0.02 n)((1 - eps)(V - d) + eps (x - 1e-9)), x being what any mix earns |
| `Blending.OneBlendedTurn` | app/core/ai_opponent/grandmaster/exploit.py:336-348 | blending any reply with weight eps into one turn of table play costs at most eps of the round's value, against every opponent and in any units |
| `Blending.BoundWhenCheap` | app/core/ai_opponent/grandmaster/exploit.py:336-348 | blending at any number of turns costs at most eps as soon as the solved value times the share given up over the remaining turns is at most eps, a condition read off the table before playing |
| `Blending.CheapEnough` | app/core/ai_opponent/grandmaster/exploit.py:336-348 | the same for weights that depend on the history: at most eps as soon as the solved value times the share given up is at most eps, for any share sustained |
| `Decision.ExploitationBound` | app/core/ai_opponent/grandmaster/exploit.py:10-15 | blending, noise and finishing at every remaining turn, with any replies and any weights, keeps the solved value of a stake reduced to any share that the factors (1 - eps)(1 - 0.02 n) of the remaining turns sustain, against every history-dependent opponent |
| `Decision.CapSustained` | app/core/ai_opponent/grandmaster/exploit.py:235-333 | for weights below a cap per turn the product of 0.9 (1 - cap) over the remaining turns is such a share |
| `Decision.AgentRoundBound` | app/core/ai_opponent/grandmaster/policy.py:50-91 | the bound for the agent's own replies and adaptive weights, for every predictability measure into [0, 1]: any share its own factors (1 - eps)(1 - 0.02 n) sustain is kept |
| `Decision.AgentCapBound` | app/core/ai_opponent/grandmaster/exploit.py:276-333 | in particular the product of 0.9 (1 - cap) with cap the largest weight of the turn; over a whole round of a level match that product is only about 3e-16 |
| `Agent.AgentRoundKeeps` | app/core/ai_opponent/grandmaster/policy.py:50-91 | over a round the agent keeps, of the stake, the least product of its own factors along any way the round can go on |
| `KeptShares.LastingSustained` | app/core/ai_opponent/grandmaster/exploit.py:10-15 | that least product is sustained by the factors, for any way of playing a round |
| `KeptShares.LastingGreatest` | app/core/ai_opponent/grandmaster/exploit.py:10-15 | and no sustained share is greater |
| `Decision.ReplySafeWhenWon` | app/core/ai_opponent/grandmaster/exploit.py:167-218 | an action in the agent's best reply concedes, against every single reply, at most (1 - V + d + 1e-9) / 0.06: where the position is won the agent's own replies give nothing away |
| `Agent.AgentMatchBound` | app/core/ai_opponent/grandmaster/policy.py:111-155 | over a whole match on the engine the agent keeps any share of 1/2 - 60 d - 3 u that its own factors sustain, against every opponent |
| `Agent.AgentMatchKeeps` | app/core/ai_opponent/grandmaster/policy.py:111-155 | over a match it keeps the least product of its own factors along any way the match can go on, of 1/2 - 60 d - 3 u; that product is at least 0.135 to the power 60 |
| `Agent.AgentTakesFinish` | app/core/ai_opponent/grandmaster/policy.py:145-147 | in every match state where an action beats all replies the agent plays it for certain, and every reply loses the opponent the round |
| `Agent.AgentClinches` | app/core/ai_opponent/grandmaster/policy.py:145-147 | with one round already won, its expected final score there is exactly 1 against every opponent |
| `KeptShares.MatchLastingSustained` | app/core/ai_opponent/grandmaster/solver.py:157-205 | that least product over matches is sustained |
| `KeptShares.MatchLastingGreatest` | app/core/ai_opponent/grandmaster/solver.py:157-205 | and no sustained share is greater |
| `Agent.AgentMatchFloor` | app/core/ai_opponent/grandmaster/policy.py:111-155 | one such share always exists: 0.135 to the power 60, positive but tiny |
| `Compounding.TwoTurnsCost` | app/core/ai_opponent/grandmaster/exploit.py:336-348 | for a strategy handed to blend that charges: with ten ki against four and two turns to go, blending it in at both turns costs 2 eps - eps^2, up to 2 d either way, against an opponent who attacks |
| `Compounding.BoundHereExactlyWhen` | app/core/ai_opponent/grandmaster/exploit.py:336-348 | with the exact engine the documented bound holds for these two blended turns if and only if the condition of `BoundWhenCheap` does, which is for no weight strictly between 0 and 1 |
| `Compounding.PositionWon` | app/core/ai_opponent/grandmaster/solver.py:76-116 | with ten ki against four and two turns to go the solved value is 1 up to 2 d, because teleporting twice cannot lose |
| `LateTurns.LastTurn` | app/core/ai_opponent/grandmaster/solver.py:97-113 | the value of the last turn of a round whose draw is worth 1/2, by the lead in ki: 1/2, 2/3, 4/5, 1 |
| `LateTurns.TurnBefore` | app/core/ai_opponent/grandmaster/solver.py:97-113 | with eight ki against six and two turns to go the value is 11/15, and the solved mix is the only solution |
| `AgentCost.ExploitingCheap` | app/core/ai_opponent/grandmaster/exploit.py:336-348 | for the agent's own replies and weights: at most eps as soon as the solved value times what its weights can give up is at most eps |
| `AgentCost.Rehearsal` | app/core/game_engine/engine.py:63-138 | eighteen turns that the engine records without a blow, after which the agent has eight ki and the opponent six |
| `AgentCost.ReplyBefore` | app/core/ai_opponent/grandmaster/exploit.py:43-218 | after them the agent's best reply is to charge |
| `AgentCost.ReplyLast` | app/core/ai_opponent/grandmaster/exploit.py:43-218 | and at the last turn, at seven against five, to block or to attack |
| `AgentCost.CostOfExploiting` | app/core/ai_opponent/grandmaster/exploit.py:336-348 | against an opponent who attacks and then waves, exploiting from there costs exactly 11/15 e1 + 2/5 e2 (1 - e1), e1 and e2 being the agent's weights at the two turns, whatever the predictability measure |
| `AgentCost.ExploitingCostsMore` | app/core/ai_opponent/grandmaster/exploit.py:336-348 | so it costs more than e1, and more than e2, exactly under two explicit conditions on the weights; for equal weights, exactly if they are positive and below 1/3 |
| `AgentCost.FirstRoundCostsMore` | app/core/ai_opponent/grandmaster/exploit.py:276-295 | in the first round of a match, for every measure that finds the two models equally predictable, exactly if that measure stays below 17/48 |
| `Decision.ReplayRound` | app/core/game_engine/engine.py:103-116 | a round recorded by the engine is determined by its actions |
| `Agent.FinalDistribution` | app/core/ai_opponent/grandmaster/policy.py:50-91 | table lookup, model, weight, best reply, blend and noise compute the final distribution of the theorems above: every entry is (1 - 0.02 n)((1 - eps) sigma + eps br) + 0.02 of the stored mix, the best reply to the modelled opponent and the adaptive weight |
| `Agent.Decide` | app/core/ai_opponent/grandmaster/policy.py:111-155 | for every valid match with an active round the distribution drawn from is legal and is the agent's mix at the recorded history: an action that beats all replies has probability 1; where there is none, every entry is that of the final distribution for the current score's table and draw weight; an error exactly when no round is active |
| `Store.EveryRun` | go-server/store.go:141-191 | the invariant of any number of interleaved calls: the value is the fold of the log, and what each call knows or has reported is true of the log |
| `Store.Serialisable` | app/core/game_store.py:143-213 | under every interleaving the stored session is the fold of the committed mutators in commit order, each applied to exactly the session its predecessors left |
| `Store.AtMostOnce` | app/core/game_store.py:167-208 | a call takes effect at most once |
| `Store.ReportIsTrue` | app/core/game_store.py:143-213 | a call returning a session returns the state its own commit stored (with reloading: what the store holds when it returns); a call that finds none, finds none when it returns; a refused call's mutator refuses what is stored then; a refused or exhausted call left no trace; exhaustion means at least max_retries other writes landed while it ran |
| `Store.MissingExactlyWhen` | go-server/store.go:141-191 | a call that reloads reports a missing session after having committed if and only if there is none when it returns |
| `Store.CommittedYetMissing` | go-server/store.go:141-191 | a run in which that happens: the session is deleted between the commit and the reload |
| `Store.UndisturbedAttempt` | app/core/game_store.py:169-196 | an attempt no write falls into commits the mutator's result, or reports a missing session or a refusal |
| `Store.Key.WatchAndUpdate` | app/core/game_store.py:143-213 | the retry loop, with any writes of others before the read and before the write of each attempt: an update applies the mutator to the last of the writes that landed and is the only write of its own; otherwise the key holds the last write of others that landed while it tried, or what it held before, and the version counts exactly these writes; giving up means that all attempts were disturbed |
| `Store.Key.WatchAndReload` | go-server/store.go:141-191 | the variant that loads again after committing returns what the key holds then; without a commit it leaves the key as the others left it |
| `Store.LeavesOthersWrites` | go-server/store.go:150-191 | a call that does not update leaves the last of the writes others landed during its attempts, or the value it found; it reports a missing session or a refusal exactly for what it read last |
| `Store.GivesUpExactlyWhen` | app/core/game_store.py:167-213 | the loop gives up only if every attempt was disturbed; if nothing deletes the session and the mutator refuses nothing, exactly then |
| `Store.UpdatesCurrent` | app/core/game_store.py:167-213 | a successful call applied its mutator to the session current at its first undisturbed attempt, so no write of others is lost |
| `Store.LastReadCommitted` | go-server/store.go:141-191 | on every run, the last session a call read is the one it committed to |
| `Store.Overtaken` | app/core/game_store.py:167-208 | any call about to begin an attempt can be overtaken by any other: a continuation in which it reads, loses its write, and commits at its next attempt |
| `SessionProtocol.CommitKeeps` | go-server/session.go:43-349 | every commit keeps the session well formed and moving forward; started is set by start alone with both connected, abandoned by forfeit alone, completed by resolution alone, and only a resolution moves the game, by one turn |
| `SessionProtocol.ResolveAdvances` | go-server/session.go:276-295 | a resolution that is accepted extends the booked rounds and strictly advances (completed rounds, turn) |
| `SessionProtocol.Presence` | go-server/session.go:48-72 | connecting makes exactly that player present, disconnecting exactly that player absent |
| `SessionProtocol.EveryStoredSession` | go-server/session.go:43-450 | at every moment of every run of the store: never two pending actions, connected players distinct and among the two, a valid match |
| `SessionProtocol.StoredMovesForward` | go-server/session.go:43-450 | between any two moments of any run: started is never unset and set only with both connected, a finished match never returns to play, booked rounds stay, (completed rounds, turn) never goes back |
| `SessionProtocol.StartedOnce` | go-server/session.go:110-125 | between a save and the next save or deletion at most one commit starts the match |
| `SessionProtocol.FinishedExactlyWhen` | go-server/session.go:423-450 | on every run, as long as the session is only updated, a completed match is still completed at a later moment if and only if no forfeit was committed in between, and otherwise is abandoned |
| `SessionProtocol.FinishedCanBeAbandoned` | go-server/session.go:423-450 | every run that leaves a completed match stored can go on to one that leaves it abandoned: the forfeit's write does not look at the status |
| `SessionProtocol.WithoutOne` | go-server/session.go:235-241 | a disconnect removes that one player from the list and keeps the order of the others |
| `SessionLedger.FeedsOneTurn` | go-server/session.go:161-219 | on every run, stale captures included, no accepted submission is in two pairs that were played: the submissions behind any two such turns are four different ones |
| `SessionLedger.SubmissionsConserved` | go-server/session.go:161-219 | on every run every accepted submission is in a pair, pending, or overwritten by its own player; the turns played are those of pairs and of stale captures, each played at most once |
| `SessionLedger.StoredMatchIsEngineRun` | go-server/session.go:276-295 | on every run the stored match is the engine's run over exactly the turns played, in order, except that it may be abandoned |
| `SessionLedger.LedgerFollowsStore` | go-server/session.go:161-295 | the ledger's session is what the store holds after those commits |
| `SessionLedger.CleanExactlyWhen` | go-server/session.go:149-219 | no pair is dropped and no stale one exists if and only if every submission hands over what its commit took; then turns never exceed pairs taken |
| `SessionLedger.StaleTurnPlayed` | go-server/session.go:149-219 | otherwise two turns can come of one pair: a run in which they do |
| `SessionLedger.PlayedExactlyWhen` | go-server/session.go:276-295 | a waiting pair is played if and only if the match is in progress and both its actions can be paid for when it is resolved |
| `SessionLedger.LostOnlyAfterTurn` | go-server/session.go:276-295 | on every run a pair is lost only if the match has ended or a turn was played after the earlier of its two submissions was accepted |
| `SessionLedger.PairCanBeLost` | go-server/session.go:276-295 | a run in which a taken pair is no longer affordable when it is resolved and is lost |
| `SessionCaptures.ResolvesWhatItTook` | go-server/session.go:149-219 | exactly when a submitting worker resolves the pair its commit took, given that its captured variables outlive lost attempts; always at the first attempt |
| `SessionCaptures.StaleCapture` | go-server/session.go:149-219 | wherever two calls submit for one player while the other's action is pending, the run can go on so that both workers resolve a pair although only one took one |
| `SessionCaptures.StaleCaptureHappens` | go-server/session.go:149-219 | a run of the store from the beginning in which that happens |
| `SessionCaptures.LastReportCommitted` | go-server/session.go:149-219 | on every run the last report of a committed submission is about the session it committed to |
| `SessionCaptures.StartsWhatItSet` | go-server/session.go:106-133 | exactly when a call reports the start truthfully, given that its variable outlives lost attempts; always at the first attempt |
| `SessionCaptures.StartReportedTwice` | go-server/session.go:106-133 | wherever two calls are about to start a ready match, the run can go on so that both report that they started it |
| `SessionCaptures.StartReportedTwiceHappens` | go-server/session.go:106-133 | a run of the store from the beginning in which that happens |
| `SessionObject.PvPSession.HasConnected` | go-server/types.go:145-152 | the search loop answers membership |
| `SessionObject.PvPSession.MarkConnected` | go-server/types.go:154-158 | appends a player who is not yet listed |
| `SessionObject.PvPSession.HandleConnect` | go-server/session.go:48-72 | the in-place mutator agrees with the pure one, refuses exactly strangers, appends an absent player, and reports a reconnect exactly for an absent player of a started match |
| `SessionObject.PvPSession.Start` | go-server/session.go:110-125 | one undisturbed call agrees with the pure mutator: the match is started from two connected players on, the call reports that it started it exactly if it did, and otherwise for how many players it waits |
| `SessionObject.PvPSession.SubmitAction` | go-server/session.go:161-201 | agrees with the pure mutator and its report, and in full: accepted exactly in play, from a player, at a price the player's ki pays; stored in the player's own slot, or handed over as a pair in chair order with both slots emptied, for the turn to come; otherwise nothing changes |
| `SessionObject.PvPSession.ResolveTurn` | go-server/session.go:282-291 | agrees with the pure mutator and reports what the engine reports; an engine error leaves the session unchanged |
| `SessionObject.PvPSession.HandleDisconnect` | go-server/session.go:232-247 | the filtering loop agrees with the pure mutator and names the other player as the opponent |
| `SessionObject.PvPSession.Forfeit` | go-server/session.go:447-450 | marks the match abandoned and changes nothing else |
| `SessionObject.PvPSession.TurnTimeout` | go-server/session.go:384-408 | when the turn timer fires undisturbed every player without a pending action charges, which always completes a pair and empties both slots |
| `SessionObject.TimedOutTurnPlays` | go-server/session.go:384-408 | a turn for which both players timed out is always accepted by the engine |

## Left out

- SciPy's linear program enters as a function with a contract: an exact saddle point on every game, which `Minimax.ExactSolverExists` shows can be met. Its own construction, and its failure by exception, are not modelled.
- Floating point: all arithmetic is exact. The six-decimal rounding of draw weights is modelled (`Strategies`); the rounding of the stored values and mixes when the strategy is serialized is not.
- JSON, file loading, hashing, timestamps and logging.
- The entropy inside `bias_strength`: the predictability is any number in [0, 1].
- Sampling: `Agent.Decide` returns the distribution; drawing an action from it is not modelled.
- Redis networking, key expiry other than as a deletion, pub/sub messages, WebSocket frames, wall-clock timers and metrics. A timer firing is a step that may happen at any time.
- Game identifiers and match types, which no modelled decision reads.
- Unknown action names, which the Go engine would treat as free; the model has the five actions.
- Rooms, matchmaking, ratings, the other opponents, web and mobile clients, and the unused Lua script.
- Store.Key.WatchAndUpdate: the writes of others are given as values; in the interleaving model they are calls like any other.
- SessionProtocol.StoredMovesForward: is about stretches without a save or a deletion of the session, after which a new match begins.
- AgentCost.ExploitingCostsMore: is about the blend, without the noise floor added after it.
- Agent.AgentMatchFloor: its explicit share multiplies the worst factor of one turn sixty times and is only about 7e-53; `Agent.AgentMatchKeeps` has the greatest share, by recursion.
- SessionProtocol.FinishedCanBeAbandoned: the forfeit timer's own reading of the session before its write is not a step of the model; a forfeit may be committed at any time.
- SessionLedger.FeedsOneTurn: follows commits in commit order, which `Store.Serialisable` justifies, not single reads and writes.
