# Multi-agent tic-tac-toe environment

A Dafny model of `MultiAgentTicTacToe`, the environment adapter that puts a
game of tic-tac-toe in front of two learning agents, X and O. It covers the
adapter's whole per-episode state machine and proves its properties:

- `reset` starts a new game and clears the move counter. With the
  `random_first` option it plays one opening cell and gives O the first turn;
  otherwise X moves first.
- `step` takes one action from each agent. It penalises the waiting agent
  with -0.1 unless that agent passed. It plays the active agent's action on
  the game, unless the action is a pass (9) or `None`, and counts the step.
  It rebuilds both agents' observations and action masks. When the game is
  over it terminates both agents and `'__all__'`, and pays and labels them by
  the winner. It always flips the turn.
- `__create_mask` turns the board into a ten-slot action mask: nine cells and
  a pass slot.

Modules, leaf first:

- `wrappers.dfy` (`Wrappers`): `Option`, used for Python's `None` and for
  `dict.get` with a default.
- `agents.dfy` (`Agents`): the two agents and `Opponent`, the expression
  behind `__not_turn` and `__switch_turn`.
- `board.dfy` (`Board`): the flattened nine-cell board (`Grid`, 0 = empty)
  and the row-major index↔(row, col) mapping of `np.unravel_index`. Also the
  mask specification `MaskOf` and the two mask shapes: `IsMoverMask` (free
  cells open, pass closed) and `IsPassOnlyMask`.
- `game.dfy` (`GameEngine`): the game engine, reduced to its interface. It
  has a board, `game_over` and `winner_symbol`. Its `move(row, col)` changes
  only the target cell. The value left in that cell and the status reported
  afterwards come from the caller, as a `MoveEffect`.
- `env_spec.dfy` (`EnvSpec`): the outputs of a step and the episode state as
  values. It holds the specification functions `StepOutputs`, `InitialState`,
  `NextState` and `Run`, and the lemmas about them.
- `environment.dfy` (`Environment`): the class `MultiAgentTicTacToe`. Its
  fields are the turn, the move counter, the game and the agent list, plus
  the reward settings fixed at construction. `Reset` and `Step` update these
  in place. They are proved against `InitialState`, `NextState` and
  `StepOutputs`. `CreateMask` builds the mask in an array as the source does.
  It is proved equal to `MaskOf`.

Three facts about the code that the model keeps:

- With `random_first` the engine plays the opening cell and O moves next
  (environment.py:49-52). `InitialState` and `Reset` say so.
- The waiting agent's mask keeps its pass slot at 1 (environment.py:122,
  129-130). `IsPassOnlyMask` says so.
- The adapter does not check whether the target cell is free. The engine's
  answer to a move is a `MoveEffect` that the model leaves free.

## Model

| member | source | states |
|---|---|---|
| `Agents.Opponent` | articles/00FF0000/environment.py:136-137 | `__not_turn` never returns the current turn, so it names the other agent |
| `Agents.OpponentInvolutive` | articles/00FF0000/environment.py:133-137 | switching the turn twice restores it; the other agent of X is O and of O is X |
| `Environment.MultiAgentTicTacToe.SwitchTurn` | articles/00FF0000/environment.py:133-134 | the turn becomes the other agent, and only the turn field changes |
| `Board.Unravel` | articles/00FF0000/environment.py:80 | action index a (0..8) maps to a row and column in 0..2 with 3·row + col = a (row-major, C order) |
| `Board.Ravel` | articles/00FF0000/environment.py:86 | cell (row, col) sits at index 3·row + col of the flattened board, and unravelling that index gives (row, col) back |
| `Board.EmptyGrid` | articles/00FF0000/environment.py:48 | the board of a new game has all nine cells empty (0) |
| `Board.MaskOf` | articles/00FF0000/environment.py:121-131 | every mask has ten slots: nine cells and the pass slot |
| `Board.MaskMatchesBoard` | articles/00FF0000/environment.py:121-131 | the next mover's mask has 1 exactly at the empty cells, 0 at the occupied ones and 0 in the pass slot; the waiting agent's mask has 0 at every cell and 1 in the pass slot; only the mover's mask lets an agent play cells |
| `Environment.MultiAgentTicTacToe.CreateMask` | articles/00FF0000/environment.py:121-131 | the mask array built by starting from ones, clearing occupied cells through a 3×3 array, then clearing either the pass slot or all cells, has ten slots equal to `MaskOf` of the current board |
| `GameEngine.Game.constructor` | articles/00FF0000/environment.py:48 | a new game has an empty board, is not over and has no winner |
| `GameEngine.Game.Move` | articles/00FF0000/environment.py:80 | a move changes only the cell at (row, col), and the status becomes the one the engine reports |
| `Environment.MultiAgentTicTacToe.constructor` | articles/00FF0000/environment.py:17-26 | the agents are [X, O]; `random_first` defaults to false, the tie values to 0.25, the win rewards to 1 and the lose rewards to -1, and any given option overrides its default |
| `EnvSpec.InitialState` | articles/00FF0000/environment.py:46-54 | after reset the counter is 0; without `random_first`: empty board, X to move, game not over; with it: only the opening cell holds the engine's mark, every other cell is empty, and O is to move |
| `Environment.MultiAgentTicTacToe.Reset` | articles/00FF0000/environment.py:41-62 | a fresh game; the new state is `InitialState`; both agents observe the board; the agent to move gets the free-cell mask and the other the pass-only mask; both info dictionaries are empty |
| `EnvSpec.NextState` | articles/00FF0000/environment.py:78-81 | each step flips the turn and adds exactly 1 to the counter; with a pass or `None` the board and status stay as they were; otherwise action a leaves the engine's mark at cell a, every other cell unchanged, and the engine's reported status |
| `EnvSpec.RunCountsAndAlternates` | articles/00FF0000/environment.py:79-81 | after any n steps the counter has grown by n, and the turn is the starting agent exactly when n is even |
| `EnvSpec.RunLeavesUnplayedCells` | articles/00FF0000/environment.py:78-80 | over any sequence of steps, a cell that no active action names keeps its value |
| `EnvSpec.ExactlyOneMover` | articles/00FF0000/environment.py:84-89 | both agents observe the same board, and exactly one agent, the mover, gets a mask of free cells; the other can only pass |
| `EnvSpec.NonTerminalStep` | articles/00FF0000/environment.py:74-76 | on a step that does not end the game the active agent gets 0.0; the waiting agent gets -0.1 unless it passed, and 0.0 if it did; X and O are not terminated, there is no `'__all__'` key, nothing is truncated, and no outcome is reported |
| `EnvSpec.TerminalStep` | articles/00FF0000/environment.py:94-112 | on a step that ends the game X, O and `'__all__'` are terminated and nothing is truncated; rewards and labels are (x_win, o_lose) with win/lose if X won, (x_lose, o_win) with lose/win if O won, and (x_tie, o_tie) with tie/tie otherwise, whatever the agents submitted |
| `EnvSpec.TerminalRewardsFollowOutcomes` | articles/00FF0000/environment.py:98-112 | on game over each agent's reward is its own configured value for the outcome label it is given, and the labels are win/lose or tie/tie |
| `Environment.MultiAgentTicTacToe.PayOut` | articles/00FF0000/environment.py:98-112 | on game over both pending rewards and both info dictionaries are overwritten by the winner's case, so any -0.1 penalty is discarded |
| `Environment.MultiAgentTicTacToe.ObserveAll` | articles/00FF0000/environment.py:84-89 | the observation of each agent in the agent list is the board plus `MaskOf` of the board, a cell mask exactly for the given mover |
| `Environment.MultiAgentTicTacToe.Report` | articles/00FF0000/environment.py:83-112 | given the pending rewards of the step, the mappings returned are exactly `StepOutputs` for the board and status after the move |
| `Environment.MultiAgentTicTacToe.Step` | articles/00FF0000/environment.py:64-114 | the new state is `NextState` of the old one under the active agent's action; the returned mappings are `StepOutputs`; the agent whose turn it now is holds the free-cell mask and the other the pass-only mask |

## Left out

- `Game` (game.py) is not part of this model. The engine's win-line detection, its placement order and the mark it writes are unknown. Every engine answer is a caller-supplied `MoveEffect`, and all properties hold for every answer.
- `GameEngine.Game.Move`: assumes two things about the engine's `move` that cannot be checked here: it changes no cell other than (row, col), and it always returns. `NextState`'s "every other cell unchanged" clause and `RunLeavesUnplayedCells` rest on both. An engine that raises on an occupied cell is not modelled; there the source's `step` would neither count the move nor flip the turn.
- `GameEngine.Game.Move`: places whatever mark the `MoveEffect` names, including 0, and reports whatever status it names. The model therefore does not promise that a move fills a cell or that the status is consistent with the board.
- `np.random.choice` in `reset` (environment.py:51): the opening cell is the `opening` parameter, in 0..8.
- The `seed` and `options` arguments of `reset` are ignored by the source and are not parameters of `Reset`.
- `observation_space` and `action_space` (environment.py:28-38): constant gym space descriptors, with no behaviour to verify.
- The `except` handler that prints and re-raises (environment.py:115-119): error plumbing, not behaviour.
- `render_mode` and `metadata` (environment.py:15, 18): inert.
- Active actions outside 0..9: `np.unravel_index` raises on them; `Step` requires the active agent's action to be `None` or in 0..9. The waiting agent's action is only compared with 9 and may be anything.
- Missing agent keys in `actions`: the source raises `KeyError`; `Step` requires both agents' keys.
- Calling `step` before `reset`: the source fails on missing attributes; `Step` requires `Valid()`, which only `Reset` establishes. Before the first `Reset` the constructor gives the turn, counter and agent list placeholder values, where the source leaves these attributes unset.
- Rewards, mask entries and board cells are `real`/`int` values. Floating-point representation is not modelled. The observation's board encoding is whatever integers the engine stores.
- Observations hold the contents of each mask array as a sequence, not the array object itself.
- `infos` holds one label per agent (`Info`) rather than a nested mutable dictionary.
- training.py (orchestration, hyperparameter search) and analysis.py (CSV reading, plotting) are not part of this model: they only consume the environment's outputs.
