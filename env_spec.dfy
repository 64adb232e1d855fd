/**
 * What the environment's `reset` and `step` compute, stated as functions of
 * the values involved: the episode state, the per-agent outputs of a step,
 * and the lemmas that say what those outputs mean.
 */
module EnvSpec {
  import opened Wrappers
  import opened Agents
  import opened Board
  import opened GameEngine

  /** An action as submitted for one agent: `None`, a cell 0..8, or `Pass`. */
  type Action = Option<int>

  /** The actions the environment accepts from the agent whose turn it is. */
  predicate ActiveInRange(a: Action)
  {
    a.None? || 0 <= a.value <= Pass
  }

  /** Whether the active agent's action is forwarded to the game as a move. */
  predicate Places(a: Action)
  {
    a.Some? && a.value != Pass
  }

  datatype Outcome = Win | Lose | Tie

  /** The game's terminal status: `game_over` and `winner_symbol`. */
  datatype Status = Status(gameOver: bool, winner: Option<Agent>)

  /** The six reward settings, fixed when the environment is constructed. */
  datatype RewardConfig = RewardConfig(
    xTiePenalty: real, xWinReward: real, xLoseReward: real,
    oTiePenalty: real, oWinReward: real, oLoseReward: real)
  {
    /** The reward configured for agent `a` when its outcome is `o`. */
    function Pay(a: Agent, o: Outcome): real
    {
      match o
      case Win => if a == X then xWinReward else oWinReward
      case Lose => if a == X then xLoseReward else oLoseReward
      case Tie => if a == X then xTiePenalty else oTiePenalty
    }
  }

  /** What one agent observes: the flattened board and its action mask. */
  datatype Observation = Observation(board: Grid, actionMask: seq<real>)

  /** Keys of the terminations mapping: one per agent, and `'__all__'`. */
  datatype TermKey = Of(agent: Agent) | All

  /** An agent's info dictionary: empty, or holding an `outcome` label. */
  datatype Info = Info(outcome: Option<Outcome>)

  datatype StepResult = StepResult(
    observations: map<Agent, Observation>,
    rewards: map<Agent, real>,
    terminations: map<TermKey, bool>,
    truncations: map<Agent, bool>,
    infos: map<Agent, Info>)

  datatype ResetResult = ResetResult(observations: map<Agent, Observation>, infos: map<Agent, Info>)

  /** The reward of a waiting agent that did not pass. */
  const WaitingPenalty: real := -0.1

  /** Both agents see the same board; only `mover` gets a mask of cells. */
  function Observations(board: Grid, mover: Agent): map<Agent, Observation>
  {
    map[X := Observation(board, MaskOf(board, mover == X)), O := Observation(board, MaskOf(board, mover == O))]
  }

  /** Both info dictionaries empty. */
  function NoInfos(): map<Agent, Info>
  {
    map[X := Info(None), O := Info(None)]
  }

  /** The outcome of agent `a` in a finished game whose winner is `winner`. */
  function OutcomeFor(a: Agent, winner: Option<Agent>): Outcome
  {
    match winner
    case None => Tie
    case Some(w) => if w == a then Win else Lose
  }

  /** Rewards of a step that does not end the game. */
  function PendingRewards(mover: Agent, waitingAction: Action): map<Agent, real>
  {
    map[mover := 0.0, Opponent(mover) := if waitingAction != Some(Pass) then WaitingPenalty else 0.0]
  }

  /** Rewards of a step that ends the game: each agent's configured value for its outcome. */
  function TerminalRewards(winner: Option<Agent>, cfg: RewardConfig): map<Agent, real>
  {
    map[X := cfg.Pay(X, OutcomeFor(X, winner)), O := cfg.Pay(O, OutcomeFor(O, winner))]
  }

  /** Info dictionaries of a step that ends the game: each agent's outcome label. */
  function TerminalInfos(winner: Option<Agent>): map<Agent, Info>
  {
    map[X := Info(Some(OutcomeFor(X, winner))), O := Info(Some(OutcomeFor(O, winner)))]
  }

  /**
   * The five mappings a step returns, given the agent whose turn it was,
   * the waiting agent's action, and the board and status after the move.
   */
  function StepOutputs(mover: Agent, waitingAction: Action, board: Grid, status: Status, cfg: RewardConfig): StepResult
  {
    StepResult(
      Observations(board, Opponent(mover)),
      if status.gameOver then TerminalRewards(status.winner, cfg) else PendingRewards(mover, waitingAction),
      if status.gameOver then map[Of(X) := true, Of(O) := true, All := true]
      else map[Of(X) := false, Of(O) := false],
      map[X := false, O := false],
      if status.gameOver then TerminalInfos(status.winner) else NoInfos())
  }

  /** The per-episode state of the environment and its game. */
  datatype EnvState = EnvState(turn: Agent, numMoves: nat, board: Grid, status: Status)

  /**
   * The state `reset` leaves: no moves counted; X to move on an empty
   * board, or, with `randomFirst`, one opening cell played by the engine
   * and O to move.
   */
  function InitialState(randomFirst: bool, opening: int, effect: MoveEffect): (s: EnvState)
    requires randomFirst ==> 0 <= opening < 9
    ensures s.numMoves == 0
    ensures s.turn == (if randomFirst then O else X)
    ensures randomFirst ==> s.board[opening] == effect.mark
    ensures forall i :: 0 <= i < 9 && !(randomFirst && i == opening) ==> s.board[i] == 0
    ensures !randomFirst ==> s.status == Status(false, None)
  {
    if randomFirst then
      var (row, col) := Unravel(opening);
      EnvState(O, 0, EmptyGrid()[Ravel(row, col) := effect.mark], Status(effect.gameOver, effect.winner))
    else
      EnvState(X, 0, EmptyGrid(), Status(false, None))
  }

  /**
   * The state after one step in which the agent to move submitted `active`
   * and the game answered a forwarded move with `effect`. The turn always
   * flips and the counter always grows by one; a pass or `None` leaves the
   * board and status alone; a move changes only the cell it names.
   */
  function NextState(s: EnvState, active: Action, effect: MoveEffect): (t: EnvState)
    requires ActiveInRange(active)
    ensures t.turn == Opponent(s.turn) && t.numMoves == s.numMoves + 1
    ensures !Places(active) ==> t.board == s.board && t.status == s.status
    ensures Places(active) ==> t.board[active.value] == effect.mark
    ensures Places(active) ==> t.status == Status(effect.gameOver, effect.winner)
    ensures forall i :: 0 <= i < 9 && active != Some(i) ==> t.board[i] == s.board[i]
  {
    if Places(active) then
      var (row, col) := Unravel(active.value);
      EnvState(Opponent(s.turn), s.numMoves + 1, s.board[Ravel(row, col) := effect.mark],
               Status(effect.gameOver, effect.winner))
    else
      EnvState(Opponent(s.turn), s.numMoves + 1, s.board, s.status)
  }

  /** One step's input as far as the state is concerned. */
  datatype StepInput = StepInput(active: Action, effect: MoveEffect)

  predicate AllInRange(inputs: seq<StepInput>)
  {
    forall k :: 0 <= k < |inputs| ==> ActiveInRange(inputs[k].active)
  }

  /** The state after a sequence of steps. */
  function Run(s: EnvState, inputs: seq<StepInput>): EnvState
    requires AllInRange(inputs)
    decreases |inputs|
  {
    if inputs == [] then s
    else Run(NextState(s, inputs[0].active, inputs[0].effect), inputs[1..])
  }

  /**
   * Over any number of steps the counter counts the steps, and the turn
   * alternates: it is back with the same agent exactly after an even number.
   */
  lemma {:induction false} RunCountsAndAlternates(s: EnvState, inputs: seq<StepInput>)
    requires AllInRange(inputs)
    ensures Run(s, inputs).numMoves == s.numMoves + |inputs|
    ensures Run(s, inputs).turn == if |inputs| % 2 == 0 then s.turn else Opponent(s.turn)
    decreases |inputs|
  {
    if inputs != [] {
      var t := NextState(s, inputs[0].active, inputs[0].effect);
      RunCountsAndAlternates(t, inputs[1..]);
      OpponentInvolutive(s.turn);
    }
  }

  /** A cell that no step's active action names keeps its value. */
  lemma {:induction false} RunLeavesUnplayedCells(s: EnvState, inputs: seq<StepInput>, i: int)
    requires AllInRange(inputs)
    requires 0 <= i < 9
    requires forall k :: 0 <= k < |inputs| ==> inputs[k].active != Some(i)
    ensures Run(s, inputs).board[i] == s.board[i]
    decreases |inputs|
  {
    if inputs != [] {
      var t := NextState(s, inputs[0].active, inputs[0].effect);
      RunLeavesUnplayedCells(t, inputs[1..], i);
    }
  }

  /**
   * Both agents observe the same board, and exactly one of them, `mover`,
   * gets a mask of the free cells; the other can only pass.
   */
  lemma ExactlyOneMover(board: Grid, mover: Agent)
    ensures Observations(board, mover).Keys == {X, O}
    ensures forall a :: a in Observations(board, mover) ==> Observations(board, mover)[a].board == board
    ensures IsMoverMask(board, Observations(board, mover)[mover].actionMask)
    ensures IsPassOnlyMask(Observations(board, mover)[Opponent(mover)].actionMask)
    ensures forall a :: a in Observations(board, mover) ==>
              (IsMoverMask(board, Observations(board, mover)[a].actionMask) <==> a == mover)
  {
  }

  /**
   * A step that does not end the game: the agent that moved gets 0.0, the
   * waiting agent -0.1 unless it passed; nothing is terminated, there is no
   * `'__all__'` key, nothing is truncated and no outcome is reported.
   */
  lemma NonTerminalStep(mover: Agent, waitingAction: Action, board: Grid, status: Status, cfg: RewardConfig)
    requires !status.gameOver
    ensures var r := StepOutputs(mover, waitingAction, board, status, cfg);
      && r.rewards.Keys == {X, O}
      && r.rewards[mover] == 0.0
      && r.rewards[Opponent(mover)] == (if waitingAction == Some(Pass) then 0.0 else -0.1)
      && r.terminations.Keys == {Of(X), Of(O)} && All !in r.terminations
      && (forall k :: k in r.terminations ==> !r.terminations[k])
      && r.truncations.Keys == {X, O} && (forall a :: a in r.truncations ==> !r.truncations[a])
      && r.infos.Keys == {X, O} && (forall a :: a in r.infos ==> r.infos[a].outcome == None)
  {
  }

  /**
   * A step that ends the game terminates both agents and `'__all__'` and
   * pays by the winner, whatever the agents submitted:
   * X wins: (x_win, o_lose), labels (win, lose);
   * O wins: (x_lose, o_win), labels (lose, win);
   * no winner: (x_tie, o_tie), labels (tie, tie).
   */
  lemma TerminalStep(mover: Agent, waitingAction: Action, board: Grid, status: Status, cfg: RewardConfig)
    requires status.gameOver
    ensures var r := StepOutputs(mover, waitingAction, board, status, cfg);
      && r.terminations == map[Of(X) := true, Of(O) := true, All := true]
      && r.truncations == map[X := false, O := false]
      && r.rewards.Keys == {X, O} && r.infos.Keys == {X, O}
      && (status.winner == Some(X) ==>
            r.rewards[X] == cfg.xWinReward && r.rewards[O] == cfg.oLoseReward &&
            r.infos[X] == Info(Some(Win)) && r.infos[O] == Info(Some(Lose)))
      && (status.winner == Some(O) ==>
            r.rewards[X] == cfg.xLoseReward && r.rewards[O] == cfg.oWinReward &&
            r.infos[X] == Info(Some(Lose)) && r.infos[O] == Info(Some(Win)))
      && (status.winner == None ==>
            r.rewards[X] == cfg.xTiePenalty && r.rewards[O] == cfg.oTiePenalty &&
            r.infos[X] == Info(Some(Tie)) && r.infos[O] == Info(Some(Tie)))
  {
  }

  /**
   * On a finished game every agent's reward is its configured value for the
   * outcome label it is given, and the two labels are either win and lose
   * or tie and tie.
   */
  lemma TerminalRewardsFollowOutcomes(mover: Agent, waitingAction: Action, board: Grid, status: Status, cfg: RewardConfig)
    requires status.gameOver
    ensures var r := StepOutputs(mover, waitingAction, board, status, cfg);
      && (forall a :: a in r.rewards ==> a in r.infos && r.infos[a].outcome.Some? &&
                                         r.rewards[a] == cfg.Pay(a, r.infos[a].outcome.value))
      && (r.infos[X].outcome == Some(Win) <==> r.infos[O].outcome == Some(Lose))
      && (r.infos[X].outcome == Some(Tie) <==> r.infos[O].outcome == Some(Tie))
  {
  }
}
