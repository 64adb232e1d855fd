/** The two agents of the environment and the turn arithmetic between them. */
module Agents {

  /** An agent is identified by the symbol it plays. */
  datatype Agent = X | O

  /**
   * The agent that is not `a`: the environment's `__not_turn`, and the value
   * `__switch_turn` stores. Its contract names the only other agent.
   */
  function Opponent(a: Agent): (b: Agent)
    ensures b != a
  {
    if a == O then X else O
  }

  /** Switching the turn twice gives the turn back. */
  lemma OpponentInvolutive(a: Agent)
    ensures Opponent(Opponent(a)) == a
    ensures Opponent(a) == (if a == X then O else X)
  {
  }
}
