/** The seven per-factor scorers of the regret engine
    (utils/regret_calculator.py) and the food-category test.

    Sub-scores are reals: the source mixes integer step values with float
    arithmetic, and necessity and usage may be non-integers (the legacy CSV
    format accepts 2.5). `np.log10` is an input of the price scorer: the model
    does not interpret floating-point logarithms. */
module Factors {
  import opened Common
  import opened Purchases

  // ---------------------------------------------------------------------------
  // Food categories

  /** `FOOD_KEYWORDS`. */
  const FoodKeywords: set<string> :=
    {"식비", "음식", "배달", "카페", "커피", "외식", "식료품", "간식", "식사", "음료"}

  /** `is_food_category`: some keyword occurs in the stripped category, which
      is the same as occurring anywhere in the category, since no keyword
      starts or ends with a space. */
  predicate IsFoodCategory(category: string)
    ensures IsFoodCategory(category) <==> MentionsFood(category)
  {
    KeywordsIgnoreStrip(category);
    MentionsFood(Strip(category))
  }

  /** Some food keyword occurs in `s` as a substring. */
  predicate MentionsFood(s: string)
  {
    exists k | k in FoodKeywords :: Contains(s, k)
  }

  /** Stripping the category never changes whether a keyword occurs in it. */
  lemma KeywordsIgnoreStrip(category: string)
    ensures forall k | k in FoodKeywords :: Contains(Strip(category), k) <==> Contains(category, k)
  {
    forall k | k in FoodKeywords
      ensures Contains(Strip(category), k) <==> Contains(category, k)
    {
      assert |k| > 0 && forall j :: 0 <= j < |k| ==> !IsSpace(k[j]);
      StripKeepsOccurrences(category, k);
    }
  }

  // ---------------------------------------------------------------------------
  // Necessity-usage gap (0-30)

  /** `calculate_necessity_usage_gap_score`. */
  function GapScore(necessity: real, usage: real): (r: real)
    ensures r == 0.0 <==> necessity <= usage
    ensures r == 5.0 <==> necessity - usage == 1.0
    ensures r == 12.0 <==> necessity - usage == 2.0
    ensures r == 20.0 <==> necessity - usage == 3.0
    ensures r == 30.0 <==> necessity > usage && necessity - usage !in {1.0, 2.0, 3.0}
  {
    var gap := necessity - usage;
    if gap <= 0.0 then 0.0
    else if gap == 1.0 then 5.0
    else if gap == 2.0 then 12.0
    else if gap == 3.0 then 20.0
    else 30.0
  }

  predicate IsWhole(x: real)
  {
    x.Floor as real == x
  }

  /** Over whole-number gaps the gap score never decreases as the gap grows. */
  lemma GapScoreMonotone(n1: real, u1: real, n2: real, u2: real)
    requires IsWhole(n1 - u1) && IsWhole(n2 - u2)
    requires n1 - u1 <= n2 - u2
    ensures GapScore(n1, u1) <= GapScore(n2, u2)
  {
  }

  /** A positive gap strictly between whole numbers below 4 (say 0.5) scores
      the maximum 30, above the 5 of a gap of 1. */
  lemma GapScoreFractional(necessity: real, usage: real)
    requires 0.0 < necessity - usage < 4.0 && !IsWhole(necessity - usage)
    ensures GapScore(necessity, usage) == 30.0
    ensures GapScore(necessity, usage) > GapScore(necessity - (necessity - usage) + 1.0, usage)
  {
    var g := necessity - usage;
    assert g != 1.0 && g != 2.0 && g != 3.0 by {
      if g == 1.0 || g == 2.0 || g == 3.0 { assert IsWhole(g); }
    }
  }

  // ---------------------------------------------------------------------------
  // Time decay (0-15)

  /** The age weight of the time-decay scorer for purchases at least a week
      old. */
  function TimeWeight(days: int): (w: real)
    ensures w == 0.3 <==> days < 30
    ensures w == 0.6 <==> 30 <= days < 90
    ensures w == 0.9 <==> 90 <= days < 180
    ensures w == 1.2 <==> days >= 180
  {
    if days < 30 then 0.3
    else if days < 90 then 0.6
    else if days < 180 then 0.9
    else 1.2
  }

  lemma TimeWeightMonotone(d1: int, d2: int)
    requires d1 <= d2
    ensures TimeWeight(d1) <= TimeWeight(d2)
  {
  }

  /** `calculate_time_decay_score`. */
  function TimeDecayScore(days: int, usage: real): (r: real)
    ensures days < 7 ==> r == 0.0
    ensures r <= 15.0
  {
    if days < 7 then 0.0
    else MinReal((5.0 - usage) / 4.0 * TimeWeight(days) * 12.0, 15.0)
  }

  /** For a usage rating in [1,5] the time-decay score is the uncapped
      product, lies in [0, 14.4], and the cap of 15 never applies. */
  lemma TimeDecayBounds(days: int, usage: real)
    requires 1.0 <= usage <= 5.0
    ensures 0.0 <= TimeDecayScore(days, usage) <= 14.4
    ensures days >= 7 ==> TimeDecayScore(days, usage) == (5.0 - usage) / 4.0 * TimeWeight(days) * 12.0
  {
    if days >= 7 {
      var w := TimeWeight(days);
      var p := (5.0 - usage) / 4.0;
      assert 0.0 <= p <= 1.0;
      assert 0.0 <= p * w <= 1.2 by {
        assert p * w <= 1.0 * w;
      }
    }
  }

  /** Less use never lowers the time-decay score. */
  lemma TimeDecayAntitoneInUsage(days: int, u1: real, u2: real)
    requires u1 <= u2
    ensures TimeDecayScore(days, u1) >= TimeDecayScore(days, u2)
  {
    if days >= 7 {
      var w := TimeWeight(days);
      assert (5.0 - u1) / 4.0 * w >= (5.0 - u2) / 4.0 * w;
    }
  }

  /** An older purchase never scores lower on time decay, for a usage rating
      of at most 5. */
  lemma TimeDecayMonotoneInDays(d1: int, d2: int, usage: real)
    requires d1 <= d2 && usage <= 5.0
    ensures TimeDecayScore(d1, usage) <= TimeDecayScore(d2, usage)
  {
    var p := (5.0 - usage) / 4.0;
    if d1 >= 7 {
      TimeWeightMonotone(d1, d2);
      assert p * TimeWeight(d1) <= p * TimeWeight(d2);
    } else if d2 >= 7 {
      assert p * TimeWeight(d2) >= 0.0;
    }
  }

  // ---------------------------------------------------------------------------
  // Price weight (at most 20)

  /** `calculate_price_weight_score`, with `np.log10` passed in. */
  function PriceWeightScore(amount: real, avgAmount: real, maxAmount: real, log10: real -> real): (r: real)
    ensures r <= 20.0
    ensures amount <= 10000.0 ==> r == 2.0
  {
    if amount <= 10000.0 then 2.0
    else
      var priceRatio := if avgAmount > 0.0 then amount / avgAmount else 1.0;
      var maxRatio := if maxAmount > 0.0 then amount / maxAmount else 0.0;
      var logAmount := log10(amount / 1000.0);
      MinReal(priceRatio * 4.0 + maxRatio * 6.0 + logAmount * 2.0, 20.0)
  }

  /** With degenerate statistics the ratio terms fall back to 1 (average) and
      0 (maximum), so only the logarithm remains. */
  lemma PriceWeightDegenerateStats(amount: real, avgAmount: real, maxAmount: real, log10: real -> real)
    requires amount > 10000.0 && avgAmount <= 0.0 && maxAmount <= 0.0
    ensures PriceWeightScore(amount, avgAmount, maxAmount, log10) == MinReal(4.0 + log10(amount / 1000.0) * 2.0, 20.0)
  {
  }

  /** A purchase over 10000 always weighs more than a small purchase, as soon
      as log10 of a number above 10 exceeds 1 (which the true logarithm
      does). */
  lemma PriceWeightLargeOverSmall(amount: real, avgAmount: real, maxAmount: real, log10: real -> real)
    requires amount > 10000.0
    requires log10(amount / 1000.0) > 1.0
    ensures 2.0 < PriceWeightScore(amount, avgAmount, maxAmount, log10) <= 20.0
  {
    var priceRatio := if avgAmount > 0.0 then amount / avgAmount else 1.0;
    var maxRatio := if maxAmount > 0.0 then amount / maxAmount else 0.0;
    assert priceRatio > 0.0;
    assert maxRatio >= 0.0;
  }

  // ---------------------------------------------------------------------------
  // Recency (0-10)

  /** `calculate_recency_score`. A negative day count (a purchase dated after
      the reference date) falls into the first step. */
  function RecencyScore(days: int): (r: real)
    ensures r in {0.0, 2.0, 4.0, 6.0, 8.0}
    ensures r == 8.0 <==> days <= 3
    ensures r == 6.0 <==> 3 < days <= 7
    ensures r == 4.0 <==> 7 < days <= 14
    ensures r == 2.0 <==> 14 < days <= 30
    ensures r == 0.0 <==> days > 30
  {
    if days <= 3 then 8.0
    else if days <= 7 then 6.0
    else if days <= 14 then 4.0
    else if days <= 30 then 2.0
    else 0.0
  }

  lemma RecencyAntitone(d1: int, d2: int)
    requires d1 <= d2
    ensures RecencyScore(d1) >= RecencyScore(d2)
  {
  }

  // ---------------------------------------------------------------------------
  // Category repetition (0-15)

  function Abs(x: int): nat
  {
    if x < 0 then -x else x
  }

  /** A date counts as a nearby purchase of the same category when it differs
      from the current timestamp and `abs((d - current).days) <= 30`. */
  predicate Nearby(current: Timestamp, d: Timestamp)
  {
    d != current && Abs(Days(d - current)) <= 30
  }

  function NearbyCount(categoryDates: seq<Timestamp>, current: Timestamp): nat
  {
    CountWhere(categoryDates, d => Nearby(current, d))
  }

  function RepetitionStep(nearby: nat): (r: real)
  {
    if nearby >= 3 then 15.0
    else if nearby == 2 then 10.0
    else if nearby == 1 then 5.0
    else 0.0
  }

  /** `calculate_category_repetition_score` (its unused category argument is
      dropped). */
  function CategoryRepetitionScore(categoryDates: seq<Timestamp>, current: Timestamp): (r: real)
    ensures r in {0.0, 5.0, 10.0, 15.0}
    ensures |categoryDates| <= 1 ==> r == 0.0
    ensures |categoryDates| >= 2 ==>
      && (r == 15.0 <==> NearbyCount(categoryDates, current) >= 3)
      && (r == 10.0 <==> NearbyCount(categoryDates, current) == 2)
      && (r == 5.0 <==> NearbyCount(categoryDates, current) == 1)
      && (r == 0.0 <==> NearbyCount(categoryDates, current) == 0)
  {
    if |categoryDates| <= 1 then 0.0
    else RepetitionStep(NearbyCount(categoryDates, current))
  }

  /** More purchases in the category never lower the repetition score. */
  lemma {:induction false} RepetitionMonotone(categoryDates: seq<Timestamp>, more: seq<Timestamp>, current: Timestamp)
    ensures CategoryRepetitionScore(categoryDates + more, current) >= CategoryRepetitionScore(categoryDates, current)
  {
    CountWhereAppend(categoryDates, more, d => Nearby(current, d));
  }

  /** Purchases stamped with exactly the current timestamp are not counted:
      adding one to a list of at least two dates changes nothing. */
  lemma {:induction false} RepetitionIgnoresSameTimestamp(categoryDates: seq<Timestamp>, current: Timestamp)
    requires |categoryDates| >= 2
    ensures CategoryRepetitionScore(categoryDates + [current], current) == CategoryRepetitionScore(categoryDates, current)
  {
    CountWhereAppend(categoryDates, [current], d => Nearby(current, d));
    assert CountWhere([current], d => Nearby(current, d)) == 0 by {
      assert [current][1..] == [];
    }
  }

  /** Because `.days` rounds down, the 30-day window is not symmetric: a
      purchase 30 days and 23 hours later is nearby, one 30 days and one
      minute earlier is not. */
  lemma NearbyWindowAsymmetric(current: Timestamp)
    ensures Nearby(current, current + 30 * MinutesPerDay + 23 * 60)
    ensures !Nearby(current, current - 30 * MinutesPerDay - 1)
  {
    assert Days(30 * MinutesPerDay + 23 * 60) == 30;
    assert Days(-30 * MinutesPerDay - 1) == -31;
  }

  // ---------------------------------------------------------------------------
  // Late night (0-10)

  /** `calculate_late_night_score` on the time of day. Every modelled
      timestamp has a time of day (a date without one is midnight); the
      fallback to 0 is reached only by a missing date, which is not
      modelled. */
  function LateNightScore(t: Timestamp): (r: real)
    ensures r in {0.0, 4.0, 7.0, 10.0}
    ensures r == 10.0 <==> MinuteOfDay(t) < 5 * 60
    ensures r == 7.0 <==> MinuteOfDay(t) >= 23 * 60
    ensures r == 4.0 <==> 21 * 60 <= MinuteOfDay(t) < 23 * 60
  {
    var m := MinuteOfDay(t);
    if m < 5 * 60 then 10.0
    else if m >= 23 * 60 then 7.0
    else if 21 * 60 <= m < 23 * 60 then 4.0
    else 0.0
  }

  /** The late-night score depends on the time of day only. */
  lemma LateNightDaily(t: Timestamp, k: int)
    ensures LateNightScore(t + k * MinutesPerDay) == LateNightScore(t)
  {
    var m := MinuteOfDay(t);
    var t' := t + k * MinutesPerDay;
    assert t' == (CalendarDay(t) + k) * MinutesPerDay + m;
    DayAndMinuteUnique(t', CalendarDay(t) + k, m);
  }

  /** A date given without a time is midnight and scores the full 10. */
  lemma DateOnlyIsLateNight(day: int)
    ensures LateNightScore(day * MinutesPerDay) == 10.0
  {
    LateNightDaily(0, day);
  }

  // ---------------------------------------------------------------------------
  // Impulse pattern (0-10)

  /** Purchases on the same calendar day, the purchase itself included when
      it is in the list. */
  function SameDayCount(t: Timestamp, allDates: seq<Timestamp>): nat
  {
    CountWhere(allDates, d => CalendarDay(d) == CalendarDay(t))
  }

  /** Other purchases made from three days before up to `t` itself:
      `0 <= (t - d).days <= 3 and d != t`. */
  predicate InTrailingWindow(t: Timestamp, d: Timestamp)
  {
    0 <= Days(t - d) <= 3 && d != t
  }

  function TrailingCount(t: Timestamp, allDates: seq<Timestamp>): nat
  {
    CountWhere(allDates, d => InTrailingWindow(t, d))
  }

  /** `calculate_impulse_buying_pattern_score`. */
  function ImpulseScore(t: Timestamp, allDates: seq<Timestamp>): (r: real)
    ensures r in {0.0, 3.0, 4.0, 5.0, 7.0, 8.0, 10.0}
    ensures r == 10.0 <==> SameDayCount(t, allDates) >= 4
    ensures r == 7.0 <==> SameDayCount(t, allDates) == 3
    ensures r == 4.0 <==> SameDayCount(t, allDates) == 2
    ensures SameDayCount(t, allDates) < 2 ==>
      && (r == 8.0 <==> TrailingCount(t, allDates) >= 5)
      && (r == 5.0 <==> 3 <= TrailingCount(t, allDates) < 5)
      && (r == 3.0 <==> TrailingCount(t, allDates) == 2)
      && (r == 0.0 <==> TrailingCount(t, allDates) < 2)
  {
    var sameDay := SameDayCount(t, allDates);
    if sameDay >= 4 then 10.0
    else if sameDay == 3 then 7.0
    else if sameDay == 2 then 4.0
    else
      var consecutive := TrailingCount(t, allDates);
      if consecutive >= 5 then 8.0
      else if consecutive >= 3 then 5.0
      else if consecutive >= 2 then 3.0
      else 0.0
  }

  /** The trailing window, in minutes: purchases from up to four whole days
      (minus a minute) before `t`, up to `t` exclusive. */
  lemma TrailingWindowInMinutes(t: Timestamp, d: Timestamp)
    ensures InTrailingWindow(t, d) <==> d < t && t - d < 4 * MinutesPerDay
  {
    DaysSign(t - d);
  }

  /** Counting the same timestamp twice in the list already makes a same-day
      pair, so the purchase scores at least 4. */
  lemma {:induction false} ImpulseDuplicateTimestamp(t: Timestamp, allDates: seq<Timestamp>)
    requires multiset(allDates)[t] >= 2
    ensures ImpulseScore(t, allDates) >= 4.0
  {
    CountOccurrences(allDates, t);
    CountWhereMono(allDates, d => d == t, d => CalendarDay(d) == CalendarDay(t));
  }

  lemma {:induction false} CountOccurrences(s: seq<Timestamp>, t: Timestamp)
    ensures CountWhere(s, d => d == t) == multiset(s)[t]
  {
    if |s| > 0 {
      assert s == [s[0]] + s[1..];
      CountOccurrences(s[1..], t);
    }
  }
}
