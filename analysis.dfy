/** The whole-table summary and the score interpretation
    (utils/regret_calculator.py, `get_overall_regret_analysis` and
    `get_regret_score_interpretation`).

    A score column's mean is a float that is NaN for an empty table; the model
    writes such a float as `Option<real>` with `None` for NaN, and every
    comparison with NaN is false, as in Python. */
module Analysis {
  import opened Common

  // ---------------------------------------------------------------------------
  // Interpretation

  /** The six grades, from best to worst. */
  datatype Tier = VerySatisfied | Satisfied | Neutral | Disappointed | Regretted | VeryRegretted

  function Rank(t: Tier): nat
  {
    match t
    case VerySatisfied => 0
    case Satisfied => 1
    case Neutral => 2
    case Disappointed => 3
    case Regretted => 4
    case VeryRegretted => 5
  }

  /** The tier of a score: inclusive upper bounds 20, 35, 50, 65 and 80. A NaN
      score fails every test and lands in the last tier. */
  function TierOf(score: Option<real>): (t: Tier)
    ensures score.None? ==> t == VeryRegretted
    ensures score.Some? ==>
      && (t == VerySatisfied <==> score.value <= 20.0)
      && (t == Satisfied <==> 20.0 < score.value <= 35.0)
      && (t == Neutral <==> 35.0 < score.value <= 50.0)
      && (t == Disappointed <==> 50.0 < score.value <= 65.0)
      && (t == Regretted <==> 65.0 < score.value <= 80.0)
      && (t == VeryRegretted <==> 80.0 < score.value)
  {
    match score
    case None => VeryRegretted
    case Some(x) =>
      if x <= 20.0 then VerySatisfied
      else if x <= 35.0 then Satisfied
      else if x <= 50.0 then Neutral
      else if x <= 65.0 then Disappointed
      else if x <= 80.0 then Regretted
      else VeryRegretted
  }

  /** The dictionary `get_regret_score_interpretation` returns. */
  datatype Interpretation = Interpretation(grade: string, emoji: string, color: string, message: string)

  /** The grade, emoji, colour and message of each tier. The emoji run as a
      traffic light from green for the best tier to red for the two worst. */
  function Describe(t: Tier): (r: Interpretation)
    ensures r.emoji == "\U{1F7E2}" <==> Rank(t) == 0
    ensures r.emoji == "\U{1F7E1}" <==> Rank(t) == 1 || Rank(t) == 2
    ensures r.emoji == "\U{1F7E0}" <==> Rank(t) == 3
    ensures r.emoji == "\U{1F534}" <==> Rank(t) >= 4
  {
    match t
    case VerySatisfied => Interpretation("매우 만족", "\U{1F7E2}", "green", "훌륭한 구매입니다! 돈이 아깝지 않네요.")
    case Satisfied => Interpretation("만족", "\U{1F7E1}", "lightgreen", "괜찮은 구매입니다. 대체로 만족스럽네요.")
    case Neutral => Interpretation("보통", "\U{1F7E1}", "yellow", "그저 그런 구매입니다. 좀 더 신중할 필요가 있어요.")
    case Disappointed => Interpretation("아쉬움", "\U{1F7E0}", "orange", "아쉬운 구매입니다. 다음엔 더 신중하게 결정하세요.")
    case Regretted => Interpretation("후회", "\U{1F534}", "red", "후회되는 구매입니다. 왜 샀는지 다시 생각해보세요.")
    case VeryRegretted => Interpretation("매우 후회", "\U{1F534}", "darkred", "매우 후회되는 구매입니다. 충동 구매 패턴을 개선해야 합니다.")
  }

  /** `get_regret_score_interpretation(score)`. */
  function InterpretationOf(score: Option<real>): (r: Interpretation)
    ensures r.grade == "매우 만족" <==> score.Some? && score.value <= 20.0
    ensures r.grade == "만족" <==> score.Some? && 20.0 < score.value <= 35.0
    ensures r.grade == "보통" <==> score.Some? && 35.0 < score.value <= 50.0
    ensures r.grade == "아쉬움" <==> score.Some? && 50.0 < score.value <= 65.0
    ensures r.grade == "후회" <==> score.Some? && 65.0 < score.value <= 80.0
    ensures r.grade == "매우 후회" <==> score.None? || score.value > 80.0
  {
    GradesDistinct(TierOf(score), VerySatisfied);
    GradesDistinct(TierOf(score), Satisfied);
    GradesDistinct(TierOf(score), Neutral);
    GradesDistinct(TierOf(score), Disappointed);
    GradesDistinct(TierOf(score), Regretted);
    GradesDistinct(TierOf(score), VeryRegretted);
    Describe(TierOf(score))
  }

  /** A higher score never gets a better grade. */
  lemma TierMonotone(a: real, b: real)
    requires a <= b
    ensures Rank(TierOf(Some(a))) <= Rank(TierOf(Some(b)))
  {
  }

  /** Each grade names exactly one tier, so the interpretation determines
      the tier. */
  lemma GradesDistinct(s: Tier, t: Tier)
    ensures Describe(s).grade == Describe(t).grade <==> s == t
  {
    if s != t {
      var g, h := Describe(s).grade, Describe(t).grade;
      assert g != h by {
        if |g| == |h| {
          assert g[0] != h[0] || g[|g| - 1] != h[|h| - 1];
        }
      }
    }
  }

  // ---------------------------------------------------------------------------
  // Distribution buckets

  predicate InVerySatisfied(x: real) { x <= 20.0 }
  predicate InSatisfied(x: real) { 20.0 < x <= 35.0 }
  predicate InNeutral(x: real) { 35.0 < x <= 50.0 }
  predicate InRegretful(x: real) { 50.0 < x <= 65.0 }
  predicate InVeryRegretful(x: real) { x > 65.0 }
  /** The rows `get_overall_regret_analysis` counts as regretted purchases. */
  predicate IsRegret(x: real) { x > 50.0 }

  predicate AtMost35(x: real) { x <= 35.0 }
  predicate AtMost50(x: real) { x <= 50.0 }
  predicate AtMost65(x: real) { x <= 65.0 }
  predicate AnyScore(x: real) { true }

  /** Below 65 the histogram bucket and the interpretation tier agree; above
      it the histogram lumps the last two tiers together. */
  lemma TierMatchesBucket(x: real)
    ensures InVerySatisfied(x) <==> TierOf(Some(x)) == VerySatisfied
    ensures InSatisfied(x) <==> TierOf(Some(x)) == Satisfied
    ensures InNeutral(x) <==> TierOf(Some(x)) == Neutral
    ensures InRegretful(x) <==> TierOf(Some(x)) == Disappointed
    ensures InVeryRegretful(x) <==> TierOf(Some(x)) in {Regretted, VeryRegretted}
  {
  }

  // ---------------------------------------------------------------------------
  // The scored table

  /** Column names written by `add_regret_scores_to_dataframe`. */
  const TotalColumn: string := "후회점수"
  const CausePrefix: string := "후회점수_"

  /** `score_columns`, in the order the main cause is searched. */
  const ScoreColumns: seq<string> := [
    "후회점수_필요도갭", "후회점수_시간경과", "후회점수_금액",
    "후회점수_최근성", "후회점수_반복구매", "후회점수_새벽구매", "후회점수_충동패턴"]

  const UnknownCause: string := "알 수 없음"

  /** A scored table as the summary reads it: the `금액` column and whichever
      numeric columns are present, by name. */
  datatype ScoredTable = ScoredTable(amounts: seq<real>, columns: map<string, seq<real>>)

  ghost predicate WellFormed(t: ScoredTable)
  {
    forall c :: c in t.columns ==> |t.columns[c]| == |t.amounts|
  }

  /** `series.mean()`: NaN for an empty series. */
  function Mean(xs: seq<real>): (m: Option<real>)
    ensures m.None? <==> |xs| == 0
  {
    if |xs| == 0 then None else Some(SumReals(xs) / (|xs| as real))
  }

  /** Sum of the amounts on rows whose score is above 50. */
  function RegretSum(scores: seq<real>, amounts: seq<real>): real
    requires |scores| == |amounts|
  {
    if |scores| == 0 then 0.0
    else (if IsRegret(scores[0]) then amounts[0] else 0.0) + RegretSum(scores[1..], amounts[1..])
  }

  /** `name.replace('후회점수_', '')` for a score column, which carries the
      prefix once, at its start. */
  function CauseName(col: string): string
  {
    if CausePrefix <= col then col[|CausePrefix|..] else col
  }

  /** Python's `a > b` on floats, false when either side is NaN. */
  predicate Greater(a: Option<real>, b: Option<real>)
  {
    a.Some? && b.Some? && a.value > b.value
  }

  /** The `main_causes` dictionary as its items, in insertion order: the mean
      of every score column that is present, in `ScoreColumns` order. */
  function CauseMeans(t: ScoredTable, cols: seq<string>): seq<(string, Option<real>)>
  {
    if |cols| == 0 then []
    else
      var rest := CauseMeans(t, cols[1..]);
      if cols[0] in t.columns then [(cols[0], Mean(t.columns[cols[0]]))] + rest else rest
  }

  /** `item` is a listed column present in the table, paired with its mean. */
  predicate IsCauseOf(t: ScoredTable, cols: seq<string>, item: (string, Option<real>))
  {
    item.0 in cols && item.0 in t.columns && item.1 == Mean(t.columns[item.0])
  }

  /** Every item pairs a listed column present in the table with its mean. */
  lemma {:induction false} CauseMeansItems(t: ScoredTable, cols: seq<string>)
    ensures forall item | item in CauseMeans(t, cols) :: IsCauseOf(t, cols, item)
  {
    if |cols| > 0 {
      CauseMeansItems(t, cols[1..]);
      var rest := CauseMeans(t, cols[1..]);
      assert forall c | c in cols[1..] :: c in cols;
      assert forall item | item in rest :: IsCauseOf(t, cols, item);
      if cols[0] in t.columns {
        assert CauseMeans(t, cols) == [(cols[0], Mean(t.columns[cols[0]]))] + rest;
      } else {
        assert CauseMeans(t, cols) == rest;
      }
    }
  }

  /** Every listed column that is present in the table has an item. */
  lemma {:induction false} CauseMeansCovers(t: ScoredTable, cols: seq<string>)
    ensures forall c | c in cols && c in t.columns :: c in Names(CauseMeans(t, cols))
  {
    if |cols| > 0 {
      CauseMeansCovers(t, cols[1..]);
      var rest := CauseMeans(t, cols[1..]);
      assert forall c | c in cols :: c == cols[0] || c in cols[1..];
      if cols[0] in t.columns {
        NamesCons((cols[0], Mean(t.columns[cols[0]])), rest);
      } else {
        assert CauseMeans(t, cols) == rest;
      }
    }
  }

  /** The names of the `main_causes` items, in order. */
  function Names(items: seq<(string, Option<real>)>): (names: seq<string>)
    ensures |names| == |items| && forall i | 0 <= i < |items| :: names[i] == items[i].0
  {
    seq(|items|, i requires 0 <= i < |items| => items[i].0)
  }

  lemma NamesCons(item: (string, Option<real>), rest: seq<(string, Option<real>)>)
    ensures Names([item] + rest) == [item.0] + Names(rest)
  {
  }

  /** The causes follow the order of the columns they were read from. */
  lemma {:induction false} CauseMeansInColumnOrder(t: ScoredTable, cols: seq<string>)
    ensures exists idx :: SubsequenceAt(Names(CauseMeans(t, cols)), cols, idx)
  {
    if |cols| == 0 {
      assert SubsequenceAt(Names(CauseMeans(t, cols)), cols, []);
    } else {
      var rest := Names(CauseMeans(t, cols[1..]));
      CauseMeansInColumnOrder(t, cols[1..]);
      var idx :| SubsequenceAt(rest, cols[1..], idx);
      SubsequenceOfTail(rest, cols, idx);
      var shifted := seq(|idx|, i requires 0 <= i < |idx| => idx[i] + 1);
      if cols[0] in t.columns {
        NamesCons((cols[0], Mean(t.columns[cols[0]])), CauseMeans(t, cols[1..]));
        assert SubsequenceAt(Names(CauseMeans(t, cols)), cols, [0] + shifted);
      } else {
        assert Names(CauseMeans(t, cols)) == rest;
        assert SubsequenceAt(Names(CauseMeans(t, cols)), cols, shifted);
      }
    }
  }

  /** `max(items, key=lambda x: x[1])`: scans left to right and replaces the
      current best only by a strictly greater value. */
  function FirstMax(items: seq<(string, Option<real>)>): (best: (string, Option<real>))
    requires |items| > 0
    decreases |items|
  {
    if |items| == 1 then items[0]
    else
      var best := FirstMax(items[..|items| - 1]);
      if Greater(items[|items| - 1].1, best.1) then items[|items| - 1] else best
  }

  datatype Distribution = Distribution(
    verySatisfied: nat, satisfied: nat, neutral: nat, regretful: nat, veryRegretful: nat)

  /** The dictionary `get_overall_regret_analysis` returns. */
  datatype Summary = Summary(
    totalPurchases: nat,
    avgRegretScore: Option<real>,
    distribution: Distribution,
    regretCount: nat,
    regretRatio: real,
    regretAmount: int,
    regretAmountRatio: real,
    mainCauseName: string,
    mainCauseScore: Option<real>,
    interpretation: Interpretation)

  function DistributionOf(scores: seq<real>): Distribution
  {
    Distribution(
      CountWhere(scores, InVerySatisfied), CountWhere(scores, InSatisfied),
      CountWhere(scores, InNeutral), CountWhere(scores, InRegretful),
      CountWhere(scores, InVeryRegretful))
  }

  function Total(d: Distribution): nat
  {
    d.verySatisfied + d.satisfied + d.neutral + d.regretful + d.veryRegretful
  }

  /** `part / whole * 100 if whole > 0 else 0`. */
  function Percent(part: real, whole: real): real
  {
    if whole > 0.0 then part / whole * 100.0 else 0.0
  }

  /** The summary built from the total-score column and the main cause. */
  function SummaryOf(scores: seq<real>, amounts: seq<real>, cause: (string, Option<real>)): Summary
    requires |scores| == |amounts|
  {
    var n := |scores|;
    var regretCount := CountWhere(scores, IsRegret);
    var regretAmount := if regretCount > 0 then RegretSum(scores, amounts) else 0.0;
    var totalAmount := SumReals(amounts);
    var avg := Mean(scores);
    Summary(
      n, avg, DistributionOf(scores), regretCount,
      Percent(regretCount as real, n as real),
      TruncateToInt(regretAmount),
      Percent(regretAmount, totalAmount),
      CauseName(cause.0), cause.1,
      InterpretationOf(avg))
  }

  /** The main cause: the first present score column with the largest mean,
      or "알 수 없음" with score 0 when none is present. */
  function MainCause(t: ScoredTable): (string, Option<real>)
  {
    var items := CauseMeans(t, ScoreColumns);
    if |items| > 0 then FirstMax(items) else (UnknownCause, Some(0.0))
  }

  /** `get_overall_regret_analysis(df)`: `None` stands for the empty
      dictionary returned when the total-score column is absent. */
  function OverallAnalysis(t: ScoredTable): (r: Option<Summary>)
    requires WellFormed(t)
    ensures r.None? <==> TotalColumn !in t.columns
    ensures r.Some? ==> r.value.totalPurchases == |t.amounts|
  {
    if TotalColumn !in t.columns then None
    else Some(SummaryOf(t.columns[TotalColumn], t.amounts, MainCause(t)))
  }

  /** `get_overall_regret_analysis(df)`, with its loop filling `main_causes`
      and the scan `max` performs. */
  method OverallRegretAnalysis(t: ScoredTable) returns (r: Option<Summary>)
    requires WellFormed(t)
    ensures r == OverallAnalysis(t)
  {
    if TotalColumn !in t.columns {
      return None;
    }
    var mainCauses := CollectCauses(t);
    var topCause := TopCause(mainCauses);
    assert topCause == MainCause(t);
    r := Some(SummaryOf(t.columns[TotalColumn], t.amounts, topCause));
  }

  /** The loop filling `main_causes` with the mean of each present score
      column. */
  method CollectCauses(t: ScoredTable) returns (mainCauses: seq<(string, Option<real>)>)
    ensures mainCauses == CauseMeans(t, ScoreColumns)
  {
    mainCauses := [];
    for i := 0 to |ScoreColumns|
      invariant mainCauses + CauseMeans(t, ScoreColumns[i..]) == CauseMeans(t, ScoreColumns)
    {
      assert ScoreColumns[i..][1..] == ScoreColumns[i + 1..];
      var col := ScoreColumns[i];
      if col in t.columns {
        mainCauses := mainCauses + [(col, Mean(t.columns[col]))];
      }
    }
    assert ScoreColumns[|ScoreColumns|..] == [];
  }

  /** The scan `max` performs over the causes, with the fallback for none. */
  method TopCause(mainCauses: seq<(string, Option<real>)>) returns (topCause: (string, Option<real>))
    ensures |mainCauses| > 0 ==> topCause == FirstMax(mainCauses)
    ensures |mainCauses| == 0 ==> topCause == (UnknownCause, Some(0.0))
  {
    if |mainCauses| > 0 {
      topCause := mainCauses[0];
      for i := 1 to |mainCauses|
        invariant topCause == FirstMax(mainCauses[..i])
      {
        assert mainCauses[..i + 1][..i] == mainCauses[..i];
        if Greater(mainCauses[i].1, topCause.1) {
          topCause := mainCauses[i];
        }
      }
      assert mainCauses[..|mainCauses|] == mainCauses;
    } else {
      topCause := (UnknownCause, Some(0.0));
    }
  }

  // ---------------------------------------------------------------------------
  // Properties of the summary

  /** The five buckets partition the rows: their counts add up to the number
      of purchases. */
  lemma DistributionPartition(scores: seq<real>)
    ensures Total(DistributionOf(scores)) == |scores|
  {
    CountWhereSplit(scores, InVerySatisfied, InSatisfied, AtMost35);
    CountWhereSplit(scores, AtMost35, InNeutral, AtMost50);
    CountWhereSplit(scores, AtMost50, InRegretful, AtMost65);
    CountWhereSplit(scores, AtMost65, InVeryRegretful, AnyScore);
    CountWhereAll(scores, AnyScore);
  }

  /** The regretted purchases are exactly the last two buckets. */
  lemma RegretCountIsTopBuckets(scores: seq<real>)
    ensures CountWhere(scores, IsRegret) == DistributionOf(scores).regretful + DistributionOf(scores).veryRegretful
  {
    CountWhereSplit(scores, InRegretful, InVeryRegretful, IsRegret);
  }

  /** With non-negative amounts the regretted amount lies between 0 and the
      total amount. */
  lemma {:induction false} RegretSumBounds(scores: seq<real>, amounts: seq<real>)
    requires |scores| == |amounts|
    requires forall i :: 0 <= i < |amounts| ==> amounts[i] >= 0.0
    ensures 0.0 <= RegretSum(scores, amounts) <= SumReals(amounts)
  {
    if |scores| > 0 {
      RegretSumBounds(scores[1..], amounts[1..]);
    }
  }

  /** Without a regretted row the regretted amount is 0, so the source's
      `if len(regret_purchases) > 0 else 0` changes nothing. */
  lemma {:induction false} NoRegretNoSum(scores: seq<real>, amounts: seq<real>)
    requires |scores| == |amounts|
    requires CountWhere(scores, IsRegret) == 0
    ensures RegretSum(scores, amounts) == 0.0
  {
    if |scores| > 0 {
      NoRegretNoSum(scores[1..], amounts[1..]);
    }
  }

  /** A percentage of a positive whole, times the whole, gives back a hundred
      times the part; with no positive whole it is 0. */
  lemma PercentTimesWhole(part: real, whole: real)
    ensures whole > 0.0 ==> Percent(part, whole) * whole == part * 100.0
    ensures whole <= 0.0 ==> Percent(part, whole) == 0.0
  {
    if whole > 0.0 {
      calc {
        Percent(part, whole) * whole;
        part / whole * whole * 100.0;
        part * 100.0;
      }
    }
  }

  /** The values of the summary fields built from a total-score column: the
      mean score and its grade, the five bucket counts, the share of regretted rows and of the
      regretted amount as percentages, the regretted amount truncated to an
      integer, and the main cause with its prefix dropped. */
  lemma SummaryOfValues(scores: seq<real>, amounts: seq<real>, cause: (string, Option<real>))
    requires |scores| == |amounts|
    ensures var s := SummaryOf(scores, amounts, cause);
      && s.avgRegretScore == Mean(scores)
      && s.interpretation == InterpretationOf(Mean(scores))
      && s.distribution.verySatisfied == CountWhere(scores, InVerySatisfied)
      && s.distribution.satisfied == CountWhere(scores, InSatisfied)
      && s.distribution.neutral == CountWhere(scores, InNeutral)
      && s.distribution.regretful == CountWhere(scores, InRegretful)
      && s.distribution.veryRegretful == CountWhere(scores, InVeryRegretful)
      && s.regretCount == CountWhere(scores, IsRegret)
      && s.regretRatio == Percent(s.regretCount as real, |scores| as real)
      && s.regretAmount == TruncateToInt(RegretSum(scores, amounts))
      && s.regretAmountRatio == Percent(RegretSum(scores, amounts), SumReals(amounts))
      && s.mainCauseName == CauseName(cause.0)
      && s.mainCauseScore == cause.1
  {
    if CountWhere(scores, IsRegret) == 0 {
      NoRegretNoSum(scores, amounts);
    }
  }

  /** The same values for the analysis of a scored table, with the main cause
      taken from its score columns. */
  lemma SummaryValues(t: ScoredTable)
    requires WellFormed(t) && TotalColumn in t.columns
    ensures var scores := t.columns[TotalColumn];
      var s := OverallAnalysis(t).value;
      && s.avgRegretScore == Mean(scores)
      && s.interpretation == InterpretationOf(Mean(scores))
      && s.distribution.verySatisfied == CountWhere(scores, InVerySatisfied)
      && s.distribution.satisfied == CountWhere(scores, InSatisfied)
      && s.distribution.neutral == CountWhere(scores, InNeutral)
      && s.distribution.regretful == CountWhere(scores, InRegretful)
      && s.distribution.veryRegretful == CountWhere(scores, InVeryRegretful)
      && s.regretCount == CountWhere(scores, IsRegret)
      && s.regretRatio == Percent(s.regretCount as real, |scores| as real)
      && s.regretAmount == TruncateToInt(RegretSum(scores, t.amounts))
      && s.regretAmountRatio == Percent(RegretSum(scores, t.amounts), SumReals(t.amounts))
      && s.mainCauseName == CauseName(MainCause(t).0)
      && s.mainCauseScore == MainCause(t).1
  {
    SummaryOfValues(t.columns[TotalColumn], t.amounts, MainCause(t));
  }

  /** Both ratios are percentages: in [0, 100] (for non-negative amounts), and
      0 when their denominator is 0. */
  lemma RatiosBounded(t: ScoredTable)
    requires WellFormed(t) && TotalColumn in t.columns
    requires forall i :: 0 <= i < |t.amounts| ==> t.amounts[i] >= 0.0
    ensures var s := OverallAnalysis(t).value;
      && 0.0 <= s.regretRatio <= 100.0
      && 0.0 <= s.regretAmountRatio <= 100.0
      && (|t.amounts| == 0 ==> s.regretRatio == 0.0)
      && (SumReals(t.amounts) <= 0.0 ==> s.regretAmountRatio == 0.0)
      && 0 <= s.regretAmount
  {
    var scores := t.columns[TotalColumn];
    var n := |scores|;
    var count := CountWhere(scores, IsRegret);
    if n > 0 {
      PercentBounded(count as real, n as real);
    }
    RegretSumBounds(scores, t.amounts);
    var total := SumReals(t.amounts);
    var amount := if count > 0 then RegretSum(scores, t.amounts) else 0.0;
    if total > 0.0 {
      PercentBounded(amount, total);
    }
  }

  /** A part of a positive whole, as a percentage, lies in [0, 100]. */
  lemma PercentBounded(part: real, whole: real)
    requires 0.0 <= part <= whole && whole > 0.0
    ensures 0.0 <= Percent(part, whole) <= 100.0
  {
    assert part / whole <= 1.0;
  }

  /** The summary counts every row once and `regret_count` is the number of
      rows above 50. */
  lemma SummaryCounts(t: ScoredTable)
    requires WellFormed(t) && TotalColumn in t.columns
    ensures var s := OverallAnalysis(t).value;
      && Total(s.distribution) == s.totalPurchases
      && s.regretCount == s.distribution.regretful + s.distribution.veryRegretful
  {
    DistributionPartition(t.columns[TotalColumn]);
    RegretCountIsTopBuckets(t.columns[TotalColumn]);
  }

  /** `max` returns the first item whose value no item exceeds: when every
      mean is a number, the result is at some index `i`, no value is larger,
      and every item before `i` is strictly smaller. */
  lemma {:induction false} FirstMaxIsFirstMaximum(items: seq<(string, Option<real>)>)
    requires |items| > 0
    requires forall j :: 0 <= j < |items| ==> items[j].1.Some?
    ensures exists i :: (0 <= i < |items| && items[i] == FirstMax(items)
      && (forall j :: 0 <= j < |items| ==> items[j].1.value <= FirstMax(items).1.value)
      && (forall j :: 0 <= j < i ==> items[j].1.value < FirstMax(items).1.value))
  {
    var best := FirstMax(items);
    if |items| == 1 {
      assert items[0] == best;
    } else {
      var init := items[..|items| - 1];
      FirstMaxIsFirstMaximum(init);
      var i :| 0 <= i < |init| && init[i] == FirstMax(init)
        && (forall j :: 0 <= j < |init| ==> init[j].1.value <= FirstMax(init).1.value)
        && (forall j :: 0 <= j < i ==> init[j].1.value < FirstMax(init).1.value);
      var last := |items| - 1;
      if Greater(items[last].1, FirstMax(init).1) {
        assert items[last] == best;
      } else {
        assert items[i] == best;
      }
    }
  }

  /** With no score column present the main cause is "알 수 없음" with
      score 0. */
  lemma NoCauseColumns(t: ScoredTable)
    requires forall c :: c in ScoreColumns ==> c !in t.columns
    ensures MainCause(t) == (UnknownCause, Some(0.0))
  {
    NoCauseMeans(t, ScoreColumns);
  }

  lemma {:induction false} NoCauseMeans(t: ScoredTable, cols: seq<string>)
    requires forall c :: c in cols ==> c !in t.columns
    ensures CauseMeans(t, cols) == []
  {
    if |cols| > 0 {
      NoCauseMeans(t, cols[1..]);
    }
  }

  /** Two score columns with equal, largest means: the one earlier in
      `ScoreColumns` is reported. */
  lemma TieGoesToEarlierColumn(a: real)
    ensures FirstMax([("후회점수_필요도갭", Some(a)), ("후회점수_금액", Some(a))]).0 == "후회점수_필요도갭"
  {
    var items := [("후회점수_필요도갭", Some(a)), ("후회점수_금액", Some(a))];
    assert items[..1] == [items[0]];
  }

  /** The reported name drops the `후회점수_` prefix. */
  lemma CauseNamesDropPrefix()
    ensures forall i | 0 <= i < |ScoreColumns| :: CausePrefix + CauseName(ScoreColumns[i]) == ScoreColumns[i]
    ensures forall i | 0 <= i < |ScoreColumns| :: !(CausePrefix <= CauseName(ScoreColumns[i]))
    ensures CauseName(UnknownCause) == UnknownCause
  {
    assert UnknownCause[0] != CausePrefix[0];
  }
}
