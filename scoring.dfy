/** The scoring rules of the game server (`calculatePositionScore`, the bonuses and the hint cost). */
module Scoring {

  /** Points the word-setter earns when nobody solved the word before the timer fired. */
  const NoGuessBonus: nat := 5

  /** Points a hint costs the player who asks for it. */
  const HintCost: nat := 10

  /**
   * `calculatePositionScore`: the reward of the `position`-th correct guess
   * (1-based) of a word of `wordLength` characters.
   */
  function PositionScore(position: nat, wordLength: nat): (r: nat)
    ensures r - 10 * wordLength == (if position == 1 then 10 else if position == 2 then 8 else 5)
  {
    if position == 1 then 10 + wordLength * 10
    else if position == 2 then 8 + wordLength * 10
    else 5 + wordLength * 10
  }

  /** The reward never increases with the position, and every word length earns the same length part. */
  lemma PositionScoreNonIncreasing(p: nat, q: nat, wordLength: nat)
    requires 1 <= p <= q
    ensures PositionScore(q, wordLength) <= PositionScore(p, wordLength)
    ensures p < q <= 3 ==> PositionScore(q, wordLength) < PositionScore(p, wordLength)
  {
  }

  /** A correct guess of a word of any length earns at least the base reward of its position. */
  lemma PositionScorePositive(position: nat, wordLength: nat)
    ensures PositionScore(position, wordLength) >= 5
  {
  }

  /** The worked values: a five-letter word earns 60, 58 and 55 for the first three guesses. */
  lemma PositionScoreExamples()
    ensures PositionScore(1, 5) == 60 && PositionScore(2, 5) == 58 && PositionScore(3, 5) == 55
    ensures PositionScore(7, 5) == 55
  {
  }

  /** A score after paying for a hint: `Math.max(0, score - hintCost)`. */
  function AfterHint(score: nat): (r: nat)
    ensures score >= HintCost ==> r == score - HintCost
    ensures score < HintCost ==> r == 0
  {
    if score - HintCost > 0 then score - HintCost else 0
  }

  /** A hint never costs more than its price and never takes a score below zero. */
  lemma HintCostBounded(score: nat)
    ensures 0 <= score - AfterHint(score) <= HintCost
  {
  }
}
