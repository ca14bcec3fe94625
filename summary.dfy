/** The per-category table of the dashboard (utils/csv_processor.py,
    `get_category_summary`): for every category, the total, mean and number
    of purchases and the mean necessity and usage, listed by total from
    largest to smallest. */
module Summary {
  import opened Common
  import opened Purchases
  import opened Sorting

  /** One row of the summary: `총_금액`, `평균_금액`, `구매_건수`,
      `평균_필요도`, `평균_사용빈도`. */
  datatype CategoryStats = CategoryStats(
    category: string,
    total: real,
    meanAmount: real,
    count: nat,
    meanNecessity: real,
    meanUsage: real)

  /** The categories of the purchases, each once, in order of first
      appearance. */
  function Categories(ps: seq<Purchase>): (r: seq<string>)
    ensures forall c :: c in r <==> exists i :: 0 <= i < |ps| && ps[i].category == c
    ensures forall i, j :: 0 <= i < j < |r| ==> r[i] != r[j]
  {
    if |ps| == 0 then []
    else
      var prev := Categories(ps[..|ps| - 1]);
      var c := ps[|ps| - 1].category;
      assert forall i :: 0 <= i < |ps| - 1 ==> ps[..|ps| - 1][i] == ps[i];
      if c in prev then prev else prev + [c]
  }

  /** The purchases of category `c`, in their order. */
  function Members(ps: seq<Purchase>, c: string): (r: seq<Purchase>)
    ensures |r| <= |ps|
    ensures forall i :: 0 <= i < |r| ==> r[i].category == c && r[i] in ps
    ensures (exists i :: 0 <= i < |ps| && ps[i].category == c) ==> |r| > 0
  {
    if |ps| == 0 then []
    else
      var prev := Members(ps[..|ps| - 1], c);
      var last := ps[|ps| - 1];
      assert forall i :: 0 <= i < |ps| - 1 ==> ps[..|ps| - 1][i] == ps[i];
      if last.category == c then prev + [last] else prev
  }

  function AmountsOf(ps: seq<Purchase>): (r: seq<real>)
    ensures |r| == |ps| && forall i :: 0 <= i < |ps| ==> r[i] == ps[i].amount
  {
    seq(|ps|, i requires 0 <= i < |ps| => ps[i].amount)
  }

  function NecessitiesOf(ps: seq<Purchase>): (r: seq<real>)
    ensures |r| == |ps| && forall i :: 0 <= i < |ps| ==> r[i] == ps[i].necessity
  {
    seq(|ps|, i requires 0 <= i < |ps| => ps[i].necessity)
  }

  function UsagesOf(ps: seq<Purchase>): (r: seq<real>)
    ensures |r| == |ps| && forall i :: 0 <= i < |ps| ==> r[i] == ps[i].usage
  {
    seq(|ps|, i requires 0 <= i < |ps| => ps[i].usage)
  }

  /** The mean of a non-empty column. */
  function Mean(xs: seq<real>): real
    requires |xs| > 0
  {
    SumReals(xs) / |xs| as real
  }

  /** The aggregates of one category. */
  function StatsOf(ps: seq<Purchase>, c: string): CategoryStats
    requires c in Categories(ps)
  {
    var group := Members(ps, c);
    CategoryStats(c, SumReals(AmountsOf(group)), Mean(AmountsOf(group)), |group|,
                  Mean(NecessitiesOf(group)), Mean(UsagesOf(group)))
  }

  function StatsFor(ps: seq<Purchase>, cats: seq<string>): (r: seq<CategoryStats>)
    requires forall c :: c in cats ==> c in Categories(ps)
    ensures |r| == |cats| && forall i :: 0 <= i < |cats| ==> r[i] == StatsOf(ps, cats[i])
  {
    seq(|cats|, i requires 0 <= i < |cats| => StatsOf(ps, cats[i]))
  }

  /** `groupby('카테고리').agg(...)`: one row per category. */
  function Groups(ps: seq<Purchase>): (r: seq<CategoryStats>)
  {
    StatsFor(ps, Categories(ps))
  }

  function TotalKey(s: CategoryStats): real
  {
    s.total
  }

  /** `get_category_summary(df)`. */
  function CategorySummary(ps: seq<Purchase>): (r: seq<CategoryStats>)
    ensures |r| == |Categories(ps)|
    ensures SortedDesc(r, TotalKey)
    ensures multiset(r) == multiset(Groups(ps))
  {
    SortDescSorted(Groups(ps), TotalKey);
    SortDesc(Groups(ps), TotalKey)
  }

  // ---------------------------------------------------------------------------
  // Counting

  /** The number of purchases the categories in `cats` account for. */
  function Covered(cats: seq<string>, ps: seq<Purchase>): nat
  {
    if |cats| == 0 then 0 else Covered(cats[..|cats| - 1], ps) + |Members(ps, cats[|cats| - 1])|
  }

  /** A purchase appended to the list counts once, for its own category, if
      that category is among the distinct `cats`. */
  lemma {:induction false} CoveredAppend(cats: seq<string>, q: seq<Purchase>, x: Purchase)
    requires forall i, j :: 0 <= i < j < |cats| ==> cats[i] != cats[j]
    ensures Covered(cats, q + [x]) == Covered(cats, q) + (if x.category in cats then 1 else 0)
  {
    var ps := q + [x];
    assert ps[..|ps| - 1] == q;
    if |cats| > 0 {
      var init := cats[..|cats| - 1];
      assert forall i, j :: 0 <= i < j < |init| ==> init[i] != init[j];
      CoveredAppend(init, q, x);
      assert x.category in cats <==> x.category in init || x.category == cats[|cats| - 1];
    }
  }

  /** A category that no purchase has has no members. */
  lemma {:induction false} NoMembers(ps: seq<Purchase>, c: string)
    requires forall i :: 0 <= i < |ps| ==> ps[i].category != c
    ensures Members(ps, c) == []
  {
    if |ps| > 0 {
      NoMembers(ps[..|ps| - 1], c);
    }
  }

  /** Every purchase is counted in exactly one group. */
  lemma {:induction false} CategoriesCoverAll(ps: seq<Purchase>)
    ensures Covered(Categories(ps), ps) == |ps|
  {
    if |ps| > 0 {
      var q := ps[..|ps| - 1];
      var x := ps[|ps| - 1];
      assert ps == q + [x];
      var prev := Categories(q);
      CategoriesCoverAll(q);
      CoveredAppend(prev, q, x);
      if x.category !in prev {
        var cats := prev + [x.category];
        assert cats[..|cats| - 1] == prev;
        NoMembers(q, x.category);
        assert Members(ps, x.category) == [x];
      }
    }
  }

  function SumCounts(s: seq<CategoryStats>): nat
  {
    if |s| == 0 then 0 else s[0].count + SumCounts(s[1..])
  }

  lemma {:induction false} SumCountsInsert(x: CategoryStats, s: seq<CategoryStats>)
    ensures SumCounts(Insert(x, s, TotalKey)) == x.count + SumCounts(s)
  {
    if |s| > 0 && TotalKey(x) < TotalKey(s[0]) {
      SumCountsInsert(x, s[1..]);
      assert Insert(x, s, TotalKey)[1..] == Insert(x, s[1..], TotalKey);
    }
  }

  lemma {:induction false} SumCountsSort(s: seq<CategoryStats>)
    ensures SumCounts(SortDesc(s, TotalKey)) == SumCounts(s)
  {
    if |s| > 0 {
      SumCountsSort(s[1..]);
      SumCountsInsert(s[0], SortDesc(s[1..], TotalKey));
    }
  }

  lemma SumCountsGroups(ps: seq<Purchase>, cats: seq<string>)
    requires forall c :: c in cats ==> c in Categories(ps)
    ensures SumCounts(StatsFor(ps, cats)) == Covered(cats, ps)
  {
    var s := StatsFor(ps, cats);
    forall i | 0 <= i < |cats| ensures s[i].count == |Members(ps, cats[i])| {
      assert s[i] == StatsOf(ps, cats[i]);
    }
    SumCountsMatch(s, ps, cats);
  }

  /** Entries whose counts are the group sizes of `cats` add up to the
      purchases those categories cover. */
  lemma {:induction false} SumCountsMatch(s: seq<CategoryStats>, ps: seq<Purchase>, cats: seq<string>)
    requires |s| == |cats|
    requires forall i :: 0 <= i < |cats| ==> s[i].count == |Members(ps, cats[i])|
    ensures SumCounts(s) == Covered(cats, ps)
  {
    if |cats| > 0 {
      var n := |cats| - 1;
      SumCountsMatch(s[..n], ps, cats[..n]);
      assert s == s[..n] + [s[n]];
      SumCountsAppend(s[..n], s[n]);
    }
  }

  lemma {:induction false} SumCountsAppend(s: seq<CategoryStats>, x: CategoryStats)
    ensures SumCounts(s + [x]) == SumCounts(s) + x.count
  {
    if |s| > 0 {
      assert (s + [x])[1..] == s[1..] + [x];
      SumCountsAppend(s[1..], x);
    }
  }

  /** The purchase counts of the summary add up to the number of
      purchases. */
  lemma SummaryCountsAddUp(ps: seq<Purchase>)
    ensures SumCounts(CategorySummary(ps)) == |ps|
  {
    SumCountsSort(Groups(ps));
    SumCountsGroups(ps, Categories(ps));
    CategoriesCoverAll(ps);
  }

  // ---------------------------------------------------------------------------
  // Order and contents

  /** Two positions holding the same element make it occur twice. */
  lemma TwiceInMultiset<T>(s: seq<T>, i: int, j: int)
    requires 0 <= i < j < |s| && s[i] == s[j]
    ensures multiset(s)[s[i]] >= 2
  {
    assert s == s[..j] + s[j..];
    assert s[i] in multiset(s[..j]);
    assert s[j] in multiset(s[j..]);
  }

  lemma {:induction false} DistinctOnce<T>(s: seq<T>, x: T)
    requires forall i, j :: 0 <= i < j < |s| ==> s[i] != s[j]
    ensures multiset(s)[x] <= 1
  {
    if |s| > 0 {
      var init := s[..|s| - 1];
      assert s == init + [s[|s| - 1]];
      DistinctOnce(init, x);
      if x == s[|s| - 1] {
        assert x !in init;
      }
    }
  }

  /** Each entry of the summary holds the aggregates of a category that
      occurs among the purchases. */
  lemma SummaryEntries(ps: seq<Purchase>, i: int)
    requires 0 <= i < |CategorySummary(ps)|
    ensures CategorySummary(ps)[i].category in Categories(ps)
    ensures CategorySummary(ps)[i] == StatsOf(ps, CategorySummary(ps)[i].category)
  {
    var g := Groups(ps);
    var s := CategorySummary(ps);
    assert s[i] in multiset(s);
    assert s[i] in multiset(g);
    var k :| 0 <= k < |g| && g[k] == s[i];
  }

  /** Every category of the purchases has an entry. */
  lemma SummaryCoversCategories(ps: seq<Purchase>, c: string)
    requires c in Categories(ps)
    ensures exists i :: 0 <= i < |CategorySummary(ps)| && CategorySummary(ps)[i].category == c
  {
    var g := Groups(ps);
    var cats := Categories(ps);
    var k :| 0 <= k < |cats| && cats[k] == c;
    assert g[k] in multiset(g);
    assert g[k] in multiset(CategorySummary(ps));
  }

  /** No category has two entries. */
  lemma SummaryCategoriesDistinct(ps: seq<Purchase>, i: int, j: int)
    requires 0 <= i < j < |CategorySummary(ps)|
    ensures CategorySummary(ps)[i].category != CategorySummary(ps)[j].category
  {
    var g := Groups(ps);
    var s := CategorySummary(ps);
    var cats := Categories(ps);
    assert forall a, b :: 0 <= a < b < |g| ==> g[a] != g[b] by {
      forall a, b | 0 <= a < b < |g| ensures g[a] != g[b] {
        assert g[a].category == cats[a] && g[b].category == cats[b];
      }
    }
    DistinctOnce(g, s[i]);
    if s[i] == s[j] {
      TwiceInMultiset(s, i, j);
    }
    SummaryEntries(ps, i);
    SummaryEntries(ps, j);
  }

  // ---------------------------------------------------------------------------
  // Bounds of the means

  lemma {:induction false} SumAtLeast(xs: seq<real>, lo: real)
    requires forall i :: 0 <= i < |xs| ==> lo <= xs[i]
    ensures |xs| as real * lo <= SumReals(xs)
  {
    if |xs| > 0 {
      SumAtLeast(xs[1..], lo);
    }
  }

  lemma {:induction false} SumAtMost(xs: seq<real>, hi: real)
    requires forall i :: 0 <= i < |xs| ==> xs[i] <= hi
    ensures SumReals(xs) <= |xs| as real * hi
  {
    if |xs| > 0 {
      SumAtMost(xs[1..], hi);
    }
  }

  lemma MeanAtLeast(xs: seq<real>, lo: real)
    requires |xs| > 0
    requires forall i :: 0 <= i < |xs| ==> lo <= xs[i]
    ensures lo <= Mean(xs)
  {
    SumAtLeast(xs, lo);
    var n := |xs| as real;
    assert lo == (n * lo) / n;
  }

  lemma MeanAtMost(xs: seq<real>, hi: real)
    requires |xs| > 0
    requires forall i :: 0 <= i < |xs| ==> xs[i] <= hi
    ensures Mean(xs) <= hi
  {
    SumAtMost(xs, hi);
    var n := |xs| as real;
    assert hi == (n * hi) / n;
  }

  /** With every rating between 1 and 5 and no negative amount, as
      validation guarantees, each category's means of necessity and usage
      stay between 1 and 5 and its total and mean amount are not
      negative. */
  lemma SummaryMeansInRange(ps: seq<Purchase>, c: string)
    requires forall i :: 0 <= i < |ps| ==>
      ps[i].amount >= 0.0 && 1.0 <= ps[i].necessity <= 5.0 && 1.0 <= ps[i].usage <= 5.0
    requires exists i :: 0 <= i < |ps| && ps[i].category == c
    ensures var s := StatsOf(ps, c);
      && s.count > 0 && s.total >= 0.0 && s.meanAmount >= 0.0
      && 1.0 <= s.meanNecessity <= 5.0 && 1.0 <= s.meanUsage <= 5.0
  {
    var group := Members(ps, c);
    assert forall i :: 0 <= i < |group| ==> group[i] in ps;
    SumAtLeast(AmountsOf(group), 0.0);
    MeanAtLeast(AmountsOf(group), 0.0);
    MeanAtLeast(NecessitiesOf(group), 1.0);
    MeanAtMost(NecessitiesOf(group), 5.0);
    MeanAtLeast(UsagesOf(group), 1.0);
    MeanAtMost(UsagesOf(group), 5.0);
  }
}
