/** The necessity rating derived from how long the buyer thought before buying
    and whether they would buy again (utils/csv_processor.py,
    `calculate_necessity_from_input`). */
module Necessity {

  /** The base score from the number of days spent deciding: 1 for an impulse
      purchase (0 days), 2 under a week, 3 under a month, 4 otherwise. Only 0
      is tested for equality, so a negative count falls in the "under a week"
      step. */
  function BaseScore(thinkingDays: int): (r: int)
    ensures r == 1 <==> thinkingDays == 0
    ensures r == 2 <==> thinkingDays != 0 && thinkingDays < 7
    ensures r == 3 <==> 7 <= thinkingDays < 30
    ensures r == 4 <==> thinkingDays >= 30
  {
    if thinkingDays == 0 then 1
    else if thinkingDays < 7 then 2
    else if thinkingDays < 30 then 3
    else 4
  }

  /** `calculate_necessity_from_input(thinking_days, repurchase_will)`. */
  function NecessityFromInput(thinkingDays: int, repurchaseWill: bool): (score: int)
    ensures repurchaseWill ==> score == BaseScore(thinkingDays) + 1
    ensures !repurchaseWill ==> score == BaseScore(thinkingDays)
  {
    var base := BaseScore(thinkingDays);
    if repurchaseWill then (if base + 1 <= 5 then base + 1 else 5) else base
  }

  /** For a non-negative number of days the rating is between 1 and 5, and it
      is 1 exactly for an impulse purchase nobody would repeat and 5 exactly
      for a month or more of thought plus the will to buy again. */
  lemma NecessityRange(thinkingDays: int, repurchaseWill: bool)
    requires thinkingDays >= 0
    ensures 1 <= NecessityFromInput(thinkingDays, repurchaseWill) <= 5
    ensures NecessityFromInput(thinkingDays, repurchaseWill) == 1 <==> thinkingDays == 0 && !repurchaseWill
    ensures NecessityFromInput(thinkingDays, repurchaseWill) == 5 <==> thinkingDays >= 30 && repurchaseWill
  {
  }

  /** Thinking longer, or being willing to buy again, never lowers the
      rating. */
  lemma NecessityMonotone(d1: int, d2: int, w1: bool, w2: bool)
    requires 0 <= d1 <= d2
    requires w1 ==> w2
    ensures NecessityFromInput(d1, w1) <= NecessityFromInput(d2, w2)
  {
  }

  /** The will to buy again adds exactly one point; the cap of 5 never cuts
      it, since the base score is at most 4. */
  lemma IntentAddsOne(thinkingDays: int)
    ensures NecessityFromInput(thinkingDays, true) == NecessityFromInput(thinkingDays, false) + 1
  {
  }

  /** A negative day count is treated as "under a week". */
  lemma NegativeDaysUnderAWeek(thinkingDays: int, repurchaseWill: bool)
    requires thinkingDays < 0
    ensures NecessityFromInput(thinkingDays, repurchaseWill) == NecessityFromInput(1, repurchaseWill)
  {
  }

  /** The worked examples of the docstring: 0 days without intent is 1, 7
      days with intent is 4, 30 days with intent is 5. */
  lemma WorkedExamples()
    ensures NecessityFromInput(0, false) == 1
    ensures NecessityFromInput(7, true) == 4
    ensures NecessityFromInput(30, true) == 5
  {
  }
}
