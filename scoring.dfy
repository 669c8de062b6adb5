/** The coin score and stage counter of GameWorld (onCoinCollected / nextStage) as values. */
module Scoring {

  const CoinsPerStage: int := 10

  datatype Tally = Tally(score: int, stage: int)

  /** What GameWorld keeps true of its counters: a score below one stage's worth, stages counted from 1. */
  predicate ValidTally(t: Tally)
  {
    0 <= t.score < CoinsPerStage && t.stage >= 1
  }

  /** nextStage: one stage up, score back to zero. */
  function NextStage(t: Tally): Tally
  {
    Tally(0, t.stage + 1)
  }

  /** onCoinCollected(amount): add, and move to the next stage once the score reaches CoinsPerStage. */
  function Collect(t: Tally, amount: int): Tally
  {
    var s := t.score + amount;
    if s >= CoinsPerStage then NextStage(Tally(s, t.stage)) else Tally(s, t.stage)
  }

  /** Total progress in coins: every completed stage is worth CoinsPerStage. */
  function Rank(t: Tally): int
  {
    (t.stage - 1) * CoinsPerStage + t.score
  }

  /** Collecting a non-negative amount keeps the counters valid; the stage rises by exactly one
      iff the score reaches CoinsPerStage, and then the score restarts at 0. */
  lemma CollectKeepsTallyValid(t: Tally, amount: int)
    requires ValidTally(t) && amount >= 0
    ensures ValidTally(Collect(t, amount))
    ensures Collect(t, amount).stage == t.stage + 1 <==> t.score + amount >= CoinsPerStage
    ensures Collect(t, amount).stage == t.stage || Collect(t, amount).stage == t.stage + 1
    ensures t.score + amount >= CoinsPerStage ==> Collect(t, amount).score == 0
    ensures t.score + amount < CoinsPerStage ==> Collect(t, amount) == Tally(t.score + amount, t.stage)
  {
  }

  /** The part of an amount that overshoots the stage boundary is discarded: progress grows by
      the whole amount exactly when the score does not pass CoinsPerStage. */
  lemma CollectDiscardsExcess(t: Tally, amount: int)
    requires ValidTally(t) && amount >= 0
    ensures Rank(Collect(t, amount)) <= Rank(t) + amount
    ensures Rank(Collect(t, amount)) == Rank(t) + amount <==> t.score + amount <= CoinsPerStage
  {
  }

  /** One coin, as the head-bump awards it, is always exactly one unit of progress. */
  lemma CollectOneCoin(t: Tally)
    requires ValidTally(t)
    ensures ValidTally(Collect(t, 1))
    ensures Rank(Collect(t, 1)) == Rank(t) + 1
  {
    CollectDiscardsExcess(t, 1);
  }
}
