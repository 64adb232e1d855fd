/**
 * The multi-agent tic-tac-toe environment: two agents, X and O, submit an
 * action each step; only the one whose turn it is acts on the game.
 */
module Environment {
  import opened Wrappers
  import opened Agents
  import opened Board
  import opened GameEngine
  import opened EnvSpec

  /** The construction options; a missing key takes its default. */
  datatype EnvOptions = EnvOptions(
    randomFirst: Option<bool>,
    xTiePenalty: Option<real>, xWinReward: Option<real>, xLoseReward: Option<real>,
    oTiePenalty: Option<real>, oWinReward: Option<real>, oLoseReward: Option<real>)

  class MultiAgentTicTacToe {
    const possibleAgents: seq<Agent> := [X, O]
    const randomFirst: bool
    const config: RewardConfig

    var agents: seq<Agent>
    var numMoves: nat
    var game: Game?
    var turn: Agent

    /** The environment has been reset: it owns a game and both agents are active. */
    ghost predicate Valid()
      reads this
    {
      game != null && agents == possibleAgents
    }

    /** The episode state as a value. */
    ghost function State(): EnvState
      reads this, game
      requires Valid()
    {
      EnvState(turn, numMoves, game.board, Status(game.gameOver, game.winner))
    }

    /** Records the options; there is no episode until the first `Reset`. */
    constructor (options: EnvOptions)
      ensures possibleAgents == [X, O] && game == null
      ensures randomFirst == options.randomFirst.GetOr(false)
      ensures config == RewardConfig(
        options.xTiePenalty.GetOr(0.25), options.xWinReward.GetOr(1.0), options.xLoseReward.GetOr(-1.0),
        options.oTiePenalty.GetOr(0.25), options.oWinReward.GetOr(1.0), options.oLoseReward.GetOr(-1.0))
    {
      randomFirst := options.randomFirst.GetOr(false);
      config := RewardConfig(
        options.xTiePenalty.GetOr(0.25), options.xWinReward.GetOr(1.0), options.xLoseReward.GetOr(-1.0),
        options.oTiePenalty.GetOr(0.25), options.oWinReward.GetOr(1.0), options.oLoseReward.GetOr(-1.0));
      agents := [];
      numMoves := 0;
      game := null;
      turn := X;
    }

    /**
     * Starts an episode with a new game. With `randomFirst` the cell
     * `opening` is played before anyone acts (the game answering with
     * `openingEffect`) and O moves first; otherwise X does.
     */
    method Reset(opening: int, openingEffect: MoveEffect) returns (r: ResetResult)
      requires randomFirst ==> 0 <= opening < 9
      modifies this
      ensures Valid() && fresh(game)
      ensures State() == InitialState(randomFirst, opening, openingEffect)
      ensures r == ResetResult(Observations(game.board, turn), NoInfos())
      ensures IsMoverMask(game.board, r.observations[turn].actionMask)
      ensures IsPassOnlyMask(r.observations[Opponent(turn)].actionMask)
    {
      agents := possibleAgents;
      numMoves := 0;
      game := new Game();
      if randomFirst {
        turn := O;
        var (row, col) := Unravel(opening);
        game.Move(row, col, openingEffect);
      } else {
        turn := X;
      }
      var observations := ObserveAll(turn);
      var infos := map a | a in agents :: Info(None);
      r := ResetResult(observations, infos);
      ExactlyOneMover(game.board, turn);
    }

    /**
     * One step. The waiting agent is penalised unless it passed; the
     * active agent's action, unless it is a pass or `None`, is played on
     * the game (which answers with `effect`); the counter grows; on game
     * over both agents are terminated and paid by the winner; the turn
     * always flips.
     */
    method Step(actions: map<Agent, Action>, effect: MoveEffect) returns (r: StepResult)
      requires Valid()
      requires turn in actions && Opponent(turn) in actions
      requires ActiveInRange(actions[turn])
      modifies this, game
      ensures Valid() && game == old(game)
      ensures State() == NextState(old(State()), actions[old(turn)], effect)
      ensures r == StepOutputs(old(turn), actions[Opponent(old(turn))], game.board,
                               Status(game.gameOver, game.winner), config)
      ensures IsMoverMask(game.board, r.observations[turn].actionMask)
      ensures IsPassOnlyMask(r.observations[Opponent(turn)].actionMask)
    {
      var rewards: map<Agent, real> := map[X := 0.0, O := 0.0];
      if actions[Opponent(turn)] != Some(Pass) {
        rewards := rewards[Opponent(turn) := WaitingPenalty];
      }
      assert rewards == PendingRewards(turn, actions[Opponent(turn)]);

      var action := actions[turn];
      if action.Some? && action.value != Pass {
        var (row, col) := Unravel(action.value);
        game.Move(row, col, effect);
      }
      numMoves := numMoves + 1;

      r := Report(actions[Opponent(turn)], rewards);
      SwitchTurn();
      ExactlyOneMover(game.board, turn);
    }

    /**
     * The second half of a step, once the move is made: both agents'
     * observations with the next mover's mask, and, when the game is over,
     * the synchronised terminations and the winner's rewards and labels in
     * place of the pending rewards.
     */
    method Report(ghost waitingAction: Action, rewards: map<Agent, real>) returns (r: StepResult)
      requires Valid()
      requires rewards == PendingRewards(turn, waitingAction)
      ensures r == StepOutputs(turn, waitingAction, game.board, Status(game.gameOver, game.winner), config)
    {
      var observations := ObserveAll(Opponent(turn));
      var terminations: map<TermKey, bool> := map[Of(X) := false, Of(O) := false];
      var truncations: map<Agent, bool> := map[X := false, O := false];
      var infos: map<Agent, Info> := NoInfos();
      var paid := rewards;
      if game.gameOver {
        terminations := terminations[Of(X) := true][Of(O) := true][All := true];
        paid, infos := PayOut(rewards, infos);
        assert terminations == map[Of(X) := true, Of(O) := true, All := true];
        assert paid == TerminalRewards(game.winner, config);
        assert infos == TerminalInfos(game.winner);
      }
      r := StepResult(observations, paid, terminations, truncations, infos);
    }

    /**
     * The game-over part of a step: each agent's reward and outcome label
     * are overwritten with the ones its winner's case prescribes.
     */
    method PayOut(rewards: map<Agent, real>, infos: map<Agent, Info>)
      returns (paid: map<Agent, real>, labelled: map<Agent, Info>)
      requires Valid()
      ensures paid == rewards + TerminalRewards(game.winner, config)
      ensures labelled == infos + TerminalInfos(game.winner)
    {
      if game.winner == Some(X) {
        paid := rewards[X := config.xWinReward][O := config.oLoseReward];
        labelled := infos[X := Info(Some(Win))][O := Info(Some(Lose))];
      } else if game.winner == Some(O) {
        paid := rewards[X := config.xLoseReward][O := config.oWinReward];
        labelled := infos[X := Info(Some(Lose))][O := Info(Some(Win))];
      } else {
        paid := rewards[X := config.xTiePenalty][O := config.oTiePenalty];
        labelled := infos[X := Info(Some(Tie))][O := Info(Some(Tie))];
      }
    }

    /**
     * The action mask of one agent for the current board: ten slots, all
     * cells and the pass slot open to start with; the agent to move next
     * keeps the free cells and loses the pass slot, the other keeps only
     * the pass slot.
     */
    method CreateMask(toMoveNext: bool) returns (mask: array<real>)
      requires Valid()
      ensures mask.Length == 10 && mask[..] == MaskOf(game.board, toMoveNext)
    {
      mask := new real[10](_ => 1.0);
      var m1 := new real[3, 3]((_, _) => 1.0);
      var k := 0;
      while k < 9
        invariant 0 <= k <= 9
        invariant forall i :: 0 <= i < 10 ==> mask[i] == 1.0
        invariant forall r, c :: 0 <= r < 3 && 0 <= c < 3 ==>
                    m1[r, c] == if 3 * r + c < k then FreeFlag(game.board[3 * r + c]) else 1.0
      {
        if game.board[k] != 0 {
          var (row, col) := Unravel(k);
          m1[row, col] := 0.0;
        }
        k := k + 1;
      }
      if toMoveNext {
        mask[9] := 0.0;
        k := 0;
        while k < 9
          invariant 0 <= k <= 9
          invariant mask[9] == 0.0
          invariant forall i :: 0 <= i < k ==> mask[i] == FreeFlag(game.board[i])
          invariant forall r, c :: 0 <= r < 3 && 0 <= c < 3 ==> m1[r, c] == FreeFlag(game.board[3 * r + c])
        {
          var (row, col) := Unravel(k);
          mask[k] := m1[row, col];
          k := k + 1;
        }
      } else {
        k := 0;
        while k < 9
          invariant 0 <= k <= 9
          invariant mask[9] == 1.0
          invariant forall i :: 0 <= i < k ==> mask[i] == 0.0
        {
          mask[k] := 0.0;
          k := k + 1;
        }
      }
    }

    /** The observations of all agents, each with the board and its own mask. */
    method ObserveAll(mover: Agent) returns (observations: map<Agent, Observation>)
      requires Valid()
      ensures observations == Observations(game.board, mover)
    {
      observations := map[];
      var k := 0;
      while k < |agents|
        invariant 0 <= k <= |agents|
        invariant observations == map a | a in agents[..k] :: Observation(game.board, MaskOf(game.board, a == mover))
      {
        var agent := agents[k];
        var mask := CreateMask(agent == mover);
        observations := observations[agent := Observation(game.board, mask[..])];
        k := k + 1;
      }
      assert agents[..k] == [X, O];
    }

    /** Passes the turn to the other agent. */
    method SwitchTurn()
      modifies this`turn
      ensures turn == Opponent(old(turn))
    {
      turn := if turn == O then X else O;
    }
  }
}
