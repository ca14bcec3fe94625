/** The composite regret score of one purchase and the table builder that
    scores every row (utils/regret_calculator.py, `calculate_regret_score`
    and `add_regret_scores_to_dataframe`).

    The reference date "now" and `np.log10` are inputs. */
module Scoring {
  import opened Common
  import opened Purchases
  import opened Factors
  import opened Frames

  /** The score dictionary, one field per key. */
  datatype Scores = Scores(
    necessityGap: real,
    timeDecay: real,
    priceWeight: real,
    recency: real,
    categoryRepetition: real,
    lateNight: real,
    impulsePattern: real,
    total: real)

  function SubScoreSum(s: Scores): real
  {
    s.necessityGap + s.timeDecay + s.priceWeight + s.recency
      + s.categoryRepetition + s.lateNight + s.impulsePattern
  }

  function Amounts(table: seq<Purchase>): (r: seq<real>)
    ensures |r| == |table|
    ensures forall i :: 0 <= i < |table| ==> r[i] == table[i].amount
  {
    if |table| == 0 then [] else [table[0].amount] + Amounts(table[1..])
  }

  /** `df['금액'].mean()`. The mean of an empty column is NaN, which fails
      the scorer's `> 0` test just as 0 does, so 0 stands for it. */
  function MeanAmount(table: seq<Purchase>): real
  {
    if |table| == 0 then 0.0 else SumReals(Amounts(table)) / (|table| as real)
  }

  /** `df['금액'].max()`, with 0 for an empty column for the same reason. */
  function MaxAmount(table: seq<Purchase>): (m: real)
    ensures forall i :: 0 <= i < |table| ==> table[i].amount <= m
  {
    if |table| == 0 then 0.0
    else if |table| == 1 then table[0].amount
    else
      var rest := MaxAmount(table[1..]);
      assert forall i :: 1 <= i < |table| ==> table[i] == table[1..][i - 1];
      if table[0].amount >= rest then table[0].amount else rest
  }

  /** `df[df['카테고리'] == category]['날짜'].tolist()`. */
  function CategoryDates(table: seq<Purchase>, category: string): (ds: seq<Timestamp>)
    ensures |ds| <= |table|
  {
    if |table| == 0 then []
    else
      var rest := CategoryDates(table[1..], category);
      if table[0].category == category then [table[0].date] + rest else rest
  }

  /** The maximum is the amount of some row. */
  lemma {:induction false} MaxAmountAttained(table: seq<Purchase>)
    requires |table| > 0
    ensures exists i :: 0 <= i < |table| && table[i].amount == MaxAmount(table)
  {
    if |table| == 1 {
      assert table[0].amount == MaxAmount(table);
    } else if table[0].amount >= MaxAmount(table[1..]) {
      assert table[0].amount == MaxAmount(table);
    } else {
      MaxAmountAttained(table[1..]);
      var i :| 0 <= i < |table[1..]| && table[1..][i].amount == MaxAmount(table[1..]);
      assert table[i + 1] == table[1..][i];
    }
  }

  /** The category's dates are exactly the dates of the rows in that
      category, in table order. */
  lemma {:induction false} CategoryDatesExact(table: seq<Purchase>, category: string, d: Timestamp)
    ensures d in CategoryDates(table, category) <==>
      exists i :: 0 <= i < |table| && table[i].category == category && table[i].date == d
  {
    if |table| > 0 {
      CategoryDatesExact(table[1..], category, d);
      if exists i :: 0 <= i < |table[1..]| && table[1..][i].category == category && table[1..][i].date == d {
        var i :| 0 <= i < |table[1..]| && table[1..][i].category == category && table[1..][i].date == d;
        assert table[i + 1] == table[1..][i];
      }
      if exists i :: 0 <= i < |table| && table[i].category == category && table[i].date == d {
        var i :| 0 <= i < |table| && table[i].category == category && table[i].date == d;
        if i > 0 {
          assert table[1..][i - 1] == table[i];
        }
      }
    }
  }

  /** `df['날짜'].tolist()`. */
  function AllDates(table: seq<Purchase>): (ds: seq<Timestamp>)
    ensures |ds| == |table|
    ensures forall i :: 0 <= i < |table| ==> ds[i] == table[i].date
  {
    if |table| == 0 then [] else [table[0].date] + AllDates(table[1..])
  }

  /** `calculate_regret_score(...)` for purchase `p` against the whole table
      `table`, with `now` as the reference date. */
  function RegretScore(p: Purchase, table: seq<Purchase>, now: Timestamp, log10: real -> real): (s: Scores)
    ensures IsFoodCategory(p.category) ==> s.necessityGap == 0.0 && s.timeDecay == 0.0
    ensures !IsFoodCategory(p.category) ==> s.necessityGap == GapScore(p.necessity, p.usage)
    ensures !IsFoodCategory(p.category) ==> s.timeDecay == TimeDecayScore(DaysBetween(p.date, now), p.usage)
    ensures s.priceWeight == PriceWeightScore(p.amount, MeanAmount(table), MaxAmount(table), log10)
    ensures s.recency == RecencyScore(DaysBetween(p.date, now))
    ensures s.categoryRepetition == CategoryRepetitionScore(CategoryDates(table, p.category), p.date)
    ensures s.lateNight == LateNightScore(p.date)
    ensures s.impulsePattern == ImpulseScore(p.date, AllDates(table))
    ensures s.total <= 100.0
    ensures SubScoreSum(s) <= 100.0 ==> s.total == SubScoreSum(s)
    ensures SubScoreSum(s) >= 100.0 ==> s.total == 100.0
  {
    var daysSince := DaysBetween(p.date, now);
    var food := IsFoodCategory(p.category);
    var partial := Scores(
      if food then 0.0 else GapScore(p.necessity, p.usage),
      if food then 0.0 else TimeDecayScore(daysSince, p.usage),
      PriceWeightScore(p.amount, MeanAmount(table), MaxAmount(table), log10),
      RecencyScore(daysSince),
      CategoryRepetitionScore(CategoryDates(table, p.category), p.date),
      LateNightScore(p.date),
      ImpulseScore(p.date, AllDates(table)),
      0.0);
    partial.(total := MinReal(SubScoreSum(partial), 100.0))
  }

  /** Every sub-score stays in its documented range and the total lies in
      [0, 100], for a usage rating in [1,5] and a logarithm that is at least
      1 above 10 (the price scorer only takes it of amounts over 10000). */
  lemma ScoreRanges(p: Purchase, table: seq<Purchase>, now: Timestamp, log10: real -> real)
    requires 1.0 <= p.usage <= 5.0
    requires p.amount > 10000.0 ==> log10(p.amount / 1000.0) > 1.0
    ensures var s := RegretScore(p, table, now, log10);
      && 0.0 <= s.necessityGap <= 30.0
      && 0.0 <= s.timeDecay <= 14.4
      && 2.0 <= s.priceWeight <= 20.0
      && 0.0 <= s.recency <= 8.0
      && 0.0 <= s.categoryRepetition <= 15.0
      && 0.0 <= s.lateNight <= 10.0
      && 0.0 <= s.impulsePattern <= 10.0
      && 0.0 <= s.total <= 100.0
  {
    var daysSince := DaysBetween(p.date, now);
    TimeDecayBounds(daysSince, p.usage);
    if p.amount > 10000.0 {
      PriceWeightLargeOverSmall(p.amount, MeanAmount(table), MaxAmount(table), log10);
    }
  }

  /** A food purchase's score does not depend on its necessity or usage
      ratings at all. */
  lemma FoodIgnoresRatings(p: Purchase, q: Purchase, table: seq<Purchase>, now: Timestamp, log10: real -> real)
    requires IsFoodCategory(p.category)
    requires q == p.(necessity := q.necessity, usage := q.usage)
    ensures RegretScore(p, table, now, log10) == RegretScore(q, table, now, log10)
  {
  }

  // ---------------------------------------------------------------------------
  // The score table

  /** A scored row: the row and the scores written into it, None where
      pandas writes NaN. */
  datatype ScoredRow = ScoredRow(row: Row, scores: Option<Scores>)

  /** Whose scores `add_regret_scores_to_dataframe` writes into the row at
      position `j`. The scores are computed row by row, in iteration order,
      into a frame indexed 0..n-1, and each column assignment aligns on index
      labels: row `j` receives the scores of the row at position
      `rows[j].indexLabel`, or NaN when that label is not a position. */
  function ScoreSource(rows: seq<Row>, j: int): (k: Option<nat>)
    requires 0 <= j < |rows|
    ensures k.Some? ==> k.value < |rows|
  {
    var source := rows[j].indexLabel;
    if 0 <= source < |rows| then Some(source) else None
  }

  /** `calculate_regret_score(row, df)` as a function of the row, for a fixed
      table `df`. */
  function Scorer(table: seq<Purchase>, now: Timestamp, log10: real -> real): Purchase -> Scores
  {
    p => RegretScore(p, table, now, log10)
  }

  /** The `regret_data` list `add_regret_scores_to_dataframe` builds: one score
      dictionary per row, in iteration order, each against the whole table. */
  function TableScores(rows: seq<Row>, now: Timestamp, log10: real -> real): (r: seq<Scores>)
    ensures |r| == |rows|
    ensures forall k :: 0 <= k < |rows| ==> r[k] == RegretScore(rows[k].purchase, PurchasesOf(rows), now, log10)
  {
    Map(PurchasesOf(rows), Scorer(PurchasesOf(rows), now, log10))
  }

  /** The label a row's index carries, read as a position of `data`. */
  function Aligned<T>(data: seq<T>, position: int): Option<T>
  {
    if 0 <= position < |data| then Some(data[position]) else None
  }

  /** `df[column] = series` for a series indexed 0..n-1: pandas aligns on
      index labels, so row `j` receives `data[rows[j].indexLabel]`, or NaN
      when no entry carries that label. */
  method AssignAligned(rows: seq<Row>, data: seq<Scores>) returns (result: seq<ScoredRow>)
    ensures |result| == |rows|
    ensures forall j :: 0 <= j < |rows| ==> result[j] == ScoredRow(rows[j], Aligned(data, rows[j].indexLabel))
  {
    result := [];
    for j := 0 to |rows|
      invariant |result| == j
      invariant forall m :: 0 <= m < j ==> result[m] == ScoredRow(rows[m], Aligned(data, rows[m].indexLabel))
    {
      var source := rows[j].indexLabel;
      var cell := if 0 <= source < |data| then Some(data[source]) else None;
      result := result + [ScoredRow(rows[j], cell)];
    }
  }

  /** The loop over `df.iterrows()` that fills `regret_data`. */
  method CollectScores(rows: seq<Row>, now: Timestamp, log10: real -> real) returns (regretData: seq<Scores>)
    ensures regretData == TableScores(rows, now, log10)
  {
    regretData := MapInOrder(PurchasesOf(rows), Scorer(PurchasesOf(rows), now, log10));
  }

  /** `add_regret_scores_to_dataframe(df)` as written: row `j` receives the
      scores computed for the row at position `ScoreSource(rows, j)`. On an
      empty table `pd.DataFrame([])` has no `total_score` column and the
      lookup raises `KeyError`, which is `None` here. */
  method AddRegretScores(rows: seq<Row>, now: Timestamp, log10: real -> real) returns (result: Option<seq<ScoredRow>>)
    ensures result.None? <==> |rows| == 0
    ensures result.Some? ==> |result.value| == |rows|
    ensures result.Some? ==> forall j :: 0 <= j < |rows| ==> result.value[j].row == rows[j]
    ensures result.Some? ==> forall j :: 0 <= j < |rows| ==>
      result.value[j].scores == (match ScoreSource(rows, j)
                                 case Some(k) => Some(TableScores(rows, now, log10)[k])
                                 case None => None)
  {
    var regretData := CollectScores(rows, now, log10);
    if |regretData| == 0 {
      return None;
    }
    var scoredRows := AssignAligned(rows, regretData);
    result := Some(scoredRows);
  }

  /** When every row's label is its own position (the input was already in
      date order) each row receives its own scores. */
  lemma SourceIsOwnRowWhenInOrder(rows: seq<Row>, j: int)
    requires 0 <= j < |rows|
    requires forall m :: 0 <= m < |rows| ==> rows[m].indexLabel == m
    ensures ScoreSource(rows, j) == Some(j)
  {
  }

  /** When the labels are a permutation of the positions, as after the date
      sort, every row receives some row's scores and no two rows receive the
      same row's. */
  lemma SourceIsPermutation(rows: seq<Row>, i: int, j: int)
    requires 0 <= i < |rows| && 0 <= j < |rows| && i != j
    requires forall m :: 0 <= m < |rows| ==> 0 <= rows[m].indexLabel < |rows|
    requires forall m, n :: 0 <= m < n < |rows| ==> rows[m].indexLabel != rows[n].indexLabel
    ensures ScoreSource(rows, i).Some? && ScoreSource(rows, j).Some?
    ensures ScoreSource(rows, i) != ScoreSource(rows, j)
  {
    if i > j {
      assert rows[j].indexLabel != rows[i].indexLabel;
    }
  }

  /** Two rows after the date sort in the order [newer, older], carrying the
      labels 1 and 0 they had before it: the newer row, a well-used purchase
      with no necessity gap, is handed the necessity-gap score of 30 computed
      for the older, unused one. */
  lemma MisalignedAfterSort(now: Timestamp, log10: real -> real)
    ensures var older := Purchase(0, "가전", 300000.0, 5.0, 1.0);
      var newer := Purchase(10 * MinutesPerDay, "가전", 5000.0, 1.0, 5.0);
      var rows := [Row(1, newer, Missing, 0), Row(0, older, Missing, 0)];
      && ScoreSource(rows, 0) == Some(1)
      && TableScores(rows, now, log10)[1].necessityGap == 30.0
      && TableScores(rows, now, log10)[0].necessityGap == 0.0
  {
    NotFood("가전");
  }

  /** "가전" (home appliances) is not a food category. */
  lemma NotFood(c: string)
    requires c == "가전"
    ensures !IsFoodCategory(c)
  {
    forall k | k in FoodKeywords ensures !Contains(Strip(c), k) {
      assert Strip(c) == c;
      assert |k| >= 2;
      if Contains(c, k) {
        ContainsIff(c, k);
      }
    }
  }

  /** The evidently intended table builder: each row receives the scores
      computed for that very row, whatever its label. An empty table still
      fails, as the source does. */
  method AddRegretScoresByPosition(rows: seq<Row>, now: Timestamp, log10: real -> real) returns (result: Option<seq<ScoredRow>>)
    ensures result.None? <==> |rows| == 0
    ensures result.Some? ==> |result.value| == |rows|
    ensures result.Some? ==> forall j :: 0 <= j < |rows| ==>
      result.value[j] == ScoredRow(rows[j], Some(TableScores(rows, now, log10)[j]))
  {
    if |rows| == 0 {
      return None;
    }
    var regretData := CollectScores(rows, now, log10);
    result := Some(seq(|rows|, j requires 0 <= j < |rows| => ScoredRow(rows[j], Some(regretData[j]))));
  }
}
