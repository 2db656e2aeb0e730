# Adaptive rock-paper-scissors opponent

A Dafny model of `rps.py`, a console rock-paper-scissors game in which the
computer learns from the human. The computer keeps a frequency table keyed by
the previous round, the pair (human move, computer move). Under each key it
counts what the human threw next. From that table it predicts the human's
next throw and answers with a move that beats the prediction. A state never
seen before gets any valid move.

The model has three modules, one per part of the program:

- `RuleTable` (`rule_table.dfy`): the `loses_to` table (for each move, the
  moves that beat it), the judging of a round from the human's side, and
  the configured table `{'R': ['P'], 'S': ['R'], 'P': ['S']}` with its
  properties.
- `Predictor` (`predictor.dfy`): the frequency table, recording a round
  (`Observe`) and `pick_move` (`PickMove`). The two random draws become
  nondeterministic choices (`:|`). The predicate `CanPick` describes the set
  of moves the computer can return: the support of the draws, not their
  probabilities. `valid_moves` is an explicit parameter tied to the keys of
  `loses_to`.
- `Game` (`game.dfy`): the main loop's mutable variables as the fields of the
  class `Session`: `wins`, `losses`, `ties`, `games_played`, `frequencies`,
  `state` and `ai_move`. `Respond` is one pass of the loop for one response
  token. `PlayRound` is the body for a valid move, split into `Score` (the
  tally) and `Learn` (record the move, shift the state, pick the next move).
  `Play` is the `while` loop over the sequence of responses the player types.
  The class invariant says that every round played is counted exactly once
  in the tally and exactly once in the frequency table.

Moves and response tokens are strings. Tokens are taken as already
upper-cased.

With the configured table rock beats scissors (rps.py:28; the banner says so
at rps.py:38), so human S against computer R is a loss: rps.py:61-63 reports
"You lost.". See `RuleTable.ClassicScenarios`.

## Model

| member | source | states |
|---|---|---|
| RuleTable.CounterBeatsPrediction | rps.py:61-63 | a move taken from `loses_to[p]` beats `p`: a human who plays `p` against it loses |
| RuleTable.ClassicIsWellFormed | rps.py:26-30 | the configured table can be played: its keys are the valid moves, each listed once; every move has a counter; every counter is itself a move |
| RuleTable.ClassicSingleCycle | rps.py:28 | in the configured table no move beats itself, each move is beaten by exactly one move, and each move beats exactly one move |
| RuleTable.ClassicTieIffEqual | rps.py:61-69 | with the configured table a round is a tie exactly when both players threw the same move |
| RuleTable.ClassicWinMirrorsLoss | rps.py:61-66 | with the configured table the human wins exactly when the human would lose with the two moves swapped |
| RuleTable.ClassicScenarios | rps.py:61-69 | R against P is a loss, R against R a tie, R against S a win, S against R a loss |
| RuleTable.Judge | rps.py:61-69 | judges a round from the human's side: a loss when the computer's move beats the human's (tested first), else a win when the human's move beats the computer's, else a tie; its meaning is proved in `CounterBeatsPrediction`, `ClassicTieIffEqual` and `ClassicWinMirrorsLoss` |
| RuleTable.Classic | rps.py:28 | the configured table: R is beaten by P, S by R, P by S; its properties are proved in `ClassicIsWellFormed` and `ClassicSingleCycle` |
| RuleTable.ClassicMoves | rps.py:30 | the valid moves, the keys of the configured table in its order; `ClassicIsWellFormed` proves they are exactly the keys, once each |
| Predictor.InitialFrequencies | rps.py:31-32 | the initial table has one key per pair of valid moves; each key counts exactly the valid moves; every count is 0 |
| Predictor.InitialObservationsZero | rps.py:31-32 | the initial table has recorded no round: the sum of all its counts is 0 |
| Predictor.Observe | rps.py:73 | recording a round adds 1 to the count of the human's move under the previous state; every other (state, move) count and every key set is unchanged |
| Predictor.ObserveAddsOne | rps.py:73 | recording a round keeps the table's shape and adds exactly 1 to the sum of all counts |
| Predictor.Total | rps.py:19 | the sum of a state's counts over the valid moves, the `sum(response_freqs.values())` of the cold-start test; `TotalZeroIff` states when it is 0 |
| Predictor.TotalZeroIff | rps.py:19 | the sum of a state's counts is 0 exactly when every count under it is 0, so the cold-start test means "never observed" |
| Predictor.CanPick | rps.py:17-22 | the support of `pick_move`: any key of `loses_to` when the state's counts sum to 0, otherwise a counter of some move with a positive count; its meaning is proved in `ColdStart`, `WarmPickBeatsObserved` and `BiasConvergence` |
| Predictor.PickMove | rps.py:17-22 | the chosen move is a valid move and lies in the support `CanPick` of the two random draws |
| Predictor.ColdStart | rps.py:19-20 | for a state whose counts are all 0, every valid move can be chosen, and only valid moves |
| Predictor.WarmPickBeatsObserved | rps.py:22 | once a state has a positive count, the chosen move beats some move the human has thrown after that state; moves of count 0 are never predicted |
| Predictor.BiasConvergence | rps.py:22 | when only move `q` has a positive count under a state, the moves that can be chosen are exactly those in `loses_to[q]` |
| Predictor.ClassicBiasConvergence | rps.py:22 | with the configured table, such a state is always answered with the single move that beats `q` |
| Predictor.PickReadsOnlyState | rps.py:17-22 | the choice depends on the table only through the entry for the current state |
| Game.GamesBeforeQuit | rps.py:52-57 | the number of rounds a sequence of responses plays is at most its length, and is 0 when it starts with a quit token |
| Game.IsQuit | rps.py:52 | the tokens that end the loop: `Q` and `QUIT` |
| Game.CountValid | rps.py:53-58 | the number of responses that are valid moves, each of which plays one round |
| Game.GamesBeforeQuitCountsRead | rps.py:52-58 | the rounds played are exactly the valid moves among the responses read before the first quit token |
| Game.QuitIndex | rps.py:52 | the loop stops at the first quit token, or at the end of the input if there is none |
| Game.NoQuitBeforeQuitIndex | rps.py:52 | no response before that position is a quit token |
| Game.Session.constructor | rps.py:42-48 | a new game starts with all counters 0, the all-zero table and the given initial state; the first computer move lies in the support of `pick_move`; the class invariant holds |
| Game.Session.Respond | rps.py:52-75 | `Q` or `QUIT` ends the game and invalid tokens are rejected, both with no change at all; a valid move plays one round as `PlayRound` states; the class invariant is kept |
| Game.Session.PlayRound | rps.py:58-75 | one round: the outcome is judged against the pending computer move; exactly one of losses, wins or ties goes up, loss tested first; games played goes up by 1; the move is recorded under the previous state; the state becomes (human move, computer move); the next computer move lies in the support of `pick_move` |
| Game.Session.Score | rps.py:61-70 | exactly the counter of the outcome goes up by 1, and games played goes up by 1 |
| Game.Session.Learn | rps.py:73-75 | the table is `Observe` of the old one and has recorded exactly one more round; the state is the round just played; the new computer move lies in the support of `pick_move` for the new state and table |
| Game.Session.Play | rps.py:50-80 | the loop reads the responses up to the first quit token; it plays exactly as many rounds as there are valid moves among them; the class invariant (wins + losses + ties == games played == sum of all counts) is kept |

## Left out

- Console I/O is left out: the banner, prompts, messages, the win-rate line and `input()` (rps.py:34-41, 50-51, 54-56, 60, 62, 65, 68, 71, 77-80). The responses are a sequence given to `Play`. Upper-casing the input (`.upper()`) is not modelled: tokens are taken as already upper-cased.
- The win-rate percentage `100*wins/games_played` (rps.py:71) is left out: it is floating-point arithmetic used only for display.
- The probabilities of `random.choice` and `random.choices` (rps.py:20, 22, 47) are not modelled. Only the support of each draw is: any move at cold start, otherwise a counter to some move of positive count.
- The random initial state (rps.py:47) becomes a parameter of the `Session` constructor: any pair of valid moves.
- A malformed `loses_to` is not modelled: the program never checks its table. `WellFormed` is a precondition instead. It requires non-empty counter lists and counters that are themselves moves. With an empty list `random.choice` would raise at rps.py:22. With a counter that is not a key, rps.py:64 or rps.py:18 would raise `KeyError`.
- Python's dictionary order is not modelled. `valid_moves` is the sequence `validMoves`, whose only use here is the order of summation. `sum(response_freqs.values())` becomes the sum over `validMoves`; the two are equal because each entry counts exactly the valid moves.
- End of input is not modelled as an error: `Play` stops at the end of its sequence, where the program's `input()` would raise `EOFError`.
- Game.Session.Play: states how many rounds are played and where reading stops, but not the final table or state across several rounds. Those are given round by round by `Respond`, and the computer's moves in between are nondeterministic.
