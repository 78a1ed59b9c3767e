/** Trend aggregation over the jobs table (app/retrieval.py, JobRetrieval's
    get_trending_jobs, get_trending_categories and get_trending).

    `value_counts()` counts each distinct value of one column and sorts the
    values by descending count; `head(top_k)` keeps the first `top_k`. The order
    of values with equal counts is not fixed by the library; this model puts them
    in the order of their first appearance in the column. */
module Trends {
  import opened Jobs
  import opened Ranking

  /** Number of rows of the column holding `v`. */
  function Count(col: seq<string>, v: string): (n: nat)
    ensures n <= |col|
    ensures n > 0 <==> v in col
  {
    if col == [] then 0
    else Count(col[..|col| - 1], v) + (if col[|col| - 1] == v then 1 else 0)
  }

  /** Row of the first occurrence of `v`, or `|col|` when `v` does not occur. */
  function FirstIndex(col: seq<string>, v: string): (i: nat)
    ensures i <= |col|
    ensures i < |col| ==> col[i] == v
    ensures forall j :: 0 <= j < i ==> col[j] != v
  {
    if col == [] then 0
    else if col[0] == v then 0
    else 1 + FirstIndex(col[1..], v)
  }

  /** The distinct values of the column, in order of first appearance. */
  function Uniques(col: seq<string>): (u: seq<string>)
    ensures forall v :: v in u <==> v in col
  {
    if col == [] then []
    else
      var u := Uniques(col[..|col| - 1]);
      var last := col[|col| - 1];
      assert col == col[..|col| - 1] + [last];
      if last in u then u else u + [last]
  }

  /** Frequency of a value: the score values are ranked by. */
  function CountOf(col: seq<string>): string -> int {
    v => Count(col, v)
  }

  /** First appearance of a value: the tie order. */
  function FirstSeen(col: seq<string>): string -> int {
    v => FirstIndex(col, v)
  }

  /** One (value, count) pair of `value_counts()`. */
  datatype Tally = Tally(value: string, count: nat)

  function Tallies(col: seq<string>, labels: seq<string>): (r: seq<Tally>)
    ensures |r| == |labels|
    ensures forall i :: 0 <= i < |r| ==> r[i] == Tally(labels[i], Count(col, labels[i]))
  {
    seq(|labels|, i requires 0 <= i < |labels| => Tally(labels[i], Count(col, labels[i])))
  }

  /** `col.value_counts().head(k)`. */
  function MostFrequent(col: seq<string>, k: nat): (r: seq<Tally>)
    ensures |r| == if k < |Uniques(col)| then k else |Uniques(col)|
    ensures forall i :: 0 <= i < |r| ==> r[i].count == Count(col, r[i].value)
  {
    Tallies(col, Top(Uniques(col), CountOf(col), k))
  }

  function SumCounts(r: seq<Tally>): nat {
    if r == [] then 0 else r[0].count + SumCounts(r[1..])
  }

  /** One entry of a trend result: a dictionary keyed by `business_title` or by
      `job_category`, with its `count`. */
  datatype TrendEntry =
    | JobTrend(businessTitle: string, count: nat)
    | CategoryTrend(jobCategory: string, count: nat)
  {
    function Label(): string {
      match this
      case JobTrend(t, _) => t
      case CategoryTrend(c, _) => c
    }
  }

  /** The column an entry was counted in. */
  function ColumnOf(rows: seq<Posting>, e: TrendEntry): seq<string> {
    if e.JobTrend? then Titles(rows) else Categories(rows)
  }

  /** The `{"business_title": title, "count": count}` entries of a tally. */
  function JobEntries(t: seq<Tally>): seq<TrendEntry> {
    seq(|t|, i requires 0 <= i < |t| => JobTrend(t[i].value, t[i].count))
  }

  /** The `{"job_category": category, "count": count}` entries of a tally. */
  function CategoryEntries(t: seq<Tally>): seq<TrendEntry> {
    seq(|t|, i requires 0 <= i < |t| => CategoryTrend(t[i].value, t[i].count))
  }

  /** get_trending_jobs(top_k). */
  function TrendingJobs(rows: seq<Posting>, topK: nat): (r: seq<TrendEntry>)
    ensures |r| <= topK
    ensures forall i :: 0 <= i < |r| ==> r[i].JobTrend? && r[i].count == Count(Titles(rows), r[i].Label())
  {
    JobEntries(MostFrequent(Titles(rows), topK))
  }

  /** get_trending_categories(top_k). */
  function TrendingCategories(rows: seq<Posting>, topK: nat): (r: seq<TrendEntry>)
    ensures |r| <= topK
    ensures forall i :: 0 <= i < |r| ==> r[i].CategoryTrend? && r[i].count == Count(Categories(rows), r[i].Label())
  {
    CategoryEntries(MostFrequent(Categories(rows), topK))
  }

  /** get_trending(query_type, top_k): dispatch on the query type string. */
  function Trending(rows: seq<Posting>, queryType: string, topK: nat): (r: seq<TrendEntry>)
    ensures |r| <= topK
    ensures forall i :: 0 <= i < |r| ==> r[i].count == Count(ColumnOf(rows, r[i]), r[i].Label())
  {
    if queryType == "categories" then TrendingCategories(rows, topK)
    else if queryType == "jobs" then TrendingJobs(rows, topK)
    else []
  }

  function EntrySum(r: seq<TrendEntry>): nat {
    if r == [] then 0 else r[0].count + EntrySum(r[1..])
  }

  // ---------------------------------------------------------------------------
  // Counting facts

  /** Occurrences of `x` among `labels`. */
  function Hits(x: string, labels: seq<string>): nat {
    if labels == [] then 0 else (if labels[0] == x then 1 else 0) + Hits(x, labels[1..])
  }

  function SumOver(col: seq<string>, labels: seq<string>): nat {
    if labels == [] then 0 else Count(col, labels[0]) + SumOver(col, labels[1..])
  }

  lemma {:induction false} HitsOfDistinct(x: string, labels: seq<string>)
    requires Distinct(labels)
    ensures Hits(x, labels) <= 1
    ensures x !in labels ==> Hits(x, labels) == 0
  {
    if labels != [] {
      HitsOfDistinct(x, labels[1..]);
      if labels[0] == x {
        HitsOfDistinct(x, labels[1..]);
        assert x !in labels[1..];
      }
    }
  }

  lemma {:induction false} SumOverLastRow(col: seq<string>, labels: seq<string>)
    requires col != []
    ensures SumOver(col, labels) == SumOver(col[..|col| - 1], labels) + Hits(col[|col| - 1], labels)
  {
    if labels != [] {
      SumOverLastRow(col, labels[1..]);
    }
  }

  /** Distinct values are counted in disjoint sets of rows, so their counts add
      up to at most the number of rows. */
  lemma {:induction false} SumOverDistinctBounded(col: seq<string>, labels: seq<string>)
    requires Distinct(labels)
    ensures SumOver(col, labels) <= |col|
  {
    if col == [] {
      if labels != [] {
        SumOverDistinctBounded(col, labels[1..]);
      }
    } else {
      SumOverLastRow(col, labels);
      HitsOfDistinct(col[|col| - 1], labels);
      SumOverDistinctBounded(col[..|col| - 1], labels);
    }
  }

  lemma {:induction false} SumCountsOfTallies(col: seq<string>, labels: seq<string>)
    ensures SumCounts(Tallies(col, labels)) == SumOver(col, labels)
  {
    if labels != [] {
      SumCountsOfTallies(col, labels[1..]);
      assert Tallies(col, labels)[1..] == Tallies(col, labels[1..]);
    }
  }

  // ---------------------------------------------------------------------------
  // First appearance order

  lemma FirstIndexOfPrefix(col: seq<string>, v: string)
    requires col != [] && v in col[..|col| - 1]
    ensures FirstIndex(col, v) == FirstIndex(col[..|col| - 1], v)
  {
    var pre := col[..|col| - 1];
    var f := FirstIndex(pre, v);
    var i := FirstIndex(col, v);
    assert forall j :: 0 <= j < |pre| ==> pre[j] == col[j];
  }

  lemma {:induction false} UniquesInFirstAppearanceOrder(col: seq<string>)
    ensures StrictlyIncreasing(Uniques(col), FirstSeen(col))
  {
    if col != [] {
      var pre := col[..|col| - 1];
      var last := col[|col| - 1];
      var u := Uniques(pre);
      UniquesInFirstAppearanceOrder(pre);
      forall v | v in u ensures FirstIndex(col, v) == FirstIndex(pre, v) < |pre| {
        FirstIndexOfPrefix(col, v);
      }
      if last !in u {
        assert FirstIndex(col, last) == |pre|;
        var w := u + [last];
        forall i, j | 0 <= i < j < |w| ensures FirstSeen(col)(w[i]) < FirstSeen(col)(w[j]) {
          assert w[i] in u;
          assert FirstSeen(pre)(w[i]) == FirstIndex(pre, w[i]);
          if j < |u| {
            assert FirstSeen(pre)(w[i]) < FirstSeen(pre)(w[j]);
          }
        }
      } else {
        forall i, j | 0 <= i < j < |u| ensures FirstSeen(col)(u[i]) < FirstSeen(col)(u[j]) {
          assert FirstSeen(pre)(u[i]) < FirstSeen(pre)(u[j]);
        }
      }
    }
  }

  // ---------------------------------------------------------------------------
  // What a trend result promises

  /** `value_counts().head(k)` has at most `k` entries (none for `k == 0`), one
      per distinct value while there are enough of them, and each entry's count
      is the number of rows holding its value. */
  lemma MostFrequentCounts(col: seq<string>, k: nat)
    ensures var r := MostFrequent(col, k);
      && |r| == (if k < |Uniques(col)| then k else |Uniques(col)|)
      && (k == 0 ==> r == [])
      && (forall i :: 0 <= i < |r| ==> r[i].value in col && r[i].count == Count(col, r[i].value))
  {
    var u := Uniques(col);
    var top := Top(u, CountOf(col), k);
    UniquesInFirstAppearanceOrder(col);
    TopIsBest(u, CountOf(col), FirstSeen(col), k);
    forall i | 0 <= i < |top| ensures top[i] in col {
      assert top[i] in top;
    }
  }

  /** Values of a trend result are pairwise distinct, counts never increase along
      it, and equal counts keep first-appearance order. */
  lemma MostFrequentOrder(col: seq<string>, k: nat)
    ensures var r := MostFrequent(col, k);
      && (forall i, j :: 0 <= i < j < |r| ==> r[i].value != r[j].value)
      && (forall i, j :: 0 <= i < j < |r| ==> r[i].count >= r[j].count)
      && (forall i, j :: 0 <= i < j < |r| && r[i].count == r[j].count ==>
            FirstIndex(col, r[i].value) < FirstIndex(col, r[j].value))
  {
    var u := Uniques(col);
    var top := Top(u, CountOf(col), k);
    var r := MostFrequent(col, k);
    UniquesInFirstAppearanceOrder(col);
    TopIsBest(u, CountOf(col), FirstSeen(col), k);
    forall i, j | 0 <= i < j < |r|
      ensures r[i].count > r[j].count || (r[i].count == r[j].count && FirstIndex(col, r[i].value) < FirstIndex(col, r[j].value))
    {
      assert CountOf(col)(top[i]) > CountOf(col)(top[j])
        || (CountOf(col)(top[i]) == CountOf(col)(top[j]) && FirstSeen(col)(top[i]) < FirstSeen(col)(top[j]));
    }
  }

  /** No value left out of a trend result is more frequent than any value kept. */
  lemma MostFrequentComplete(col: seq<string>, k: nat)
    ensures var r := MostFrequent(col, k);
      forall v, i :: v in col && (forall j :: 0 <= j < |r| ==> r[j].value != v) && 0 <= i < |r| ==>
        Count(col, v) <= r[i].count
  {
    var u := Uniques(col);
    var top := Top(u, CountOf(col), k);
    var r := MostFrequent(col, k);
    UniquesInFirstAppearanceOrder(col);
    TopIsBest(u, CountOf(col), FirstSeen(col), k);
    forall v, i | v in col && (forall j :: 0 <= j < |r| ==> r[j].value != v) && 0 <= i < |r|
      ensures Count(col, v) <= r[i].count
    {
      assert v in u;
      assert v !in top;
      assert top[i] in top;
      assert CountOf(col)(v) <= CountOf(col)(top[i]);
    }
  }

  /** The counts of a trend result add up to at most the number of rows. */
  lemma MostFrequentSum(col: seq<string>, k: nat)
    ensures SumCounts(MostFrequent(col, k)) <= |col|
  {
    var u := Uniques(col);
    var top := Top(u, CountOf(col), k);
    UniquesInFirstAppearanceOrder(col);
    TopIsBest(u, CountOf(col), FirstSeen(col), k);
    SumCountsOfTallies(col, top);
    SumOverDistinctBounded(col, top);
  }

  lemma {:induction false} EntrySumOfJobs(t: seq<Tally>)
    ensures EntrySum(JobEntries(t)) == SumCounts(t)
  {
    if t != [] {
      assert JobEntries(t)[1..] == JobEntries(t[1..]);
      EntrySumOfJobs(t[1..]);
    }
  }

  lemma {:induction false} EntrySumOfCategories(t: seq<Tally>)
    ensures EntrySum(CategoryEntries(t)) == SumCounts(t)
  {
    if t != [] {
      assert CategoryEntries(t)[1..] == CategoryEntries(t[1..]);
      EntrySumOfCategories(t[1..]);
    }
  }

  /** What a tally of one column promises: at most `k` entries, each counted in
      the column, distinct values, non-increasing counts, and counts that add up
      to at most the number of rows. */
  predicate WellFormedTallies(col: seq<string>, t: seq<Tally>, k: nat) {
    && |t| <= k
    && (forall i :: 0 <= i < |t| ==> t[i].count == Count(col, t[i].value))
    && (forall i, j :: 0 <= i < j < |t| ==> t[i].value != t[j].value)
    && (forall i, j :: 0 <= i < j < |t| ==> t[i].count >= t[j].count)
    && SumCounts(t) <= |col|
  }

  lemma MostFrequentWellFormed(col: seq<string>, k: nat)
    ensures WellFormedTallies(col, MostFrequent(col, k), k)
  {
    MostFrequentCounts(col, k);
    MostFrequentOrder(col, k);
    MostFrequentSum(col, k);
  }

  /** What every trend list promises: at most `top_k` entries, each counted in
      its own column, with distinct labels, non-increasing counts, and counts
      that add up to at most the number of rows. */
  predicate WellFormedTrends(rows: seq<Posting>, r: seq<TrendEntry>, topK: nat) {
    && |r| <= topK
    && (forall i :: 0 <= i < |r| ==> r[i].count == Count(ColumnOf(rows, r[i]), r[i].Label()))
    && (forall i, j :: 0 <= i < j < |r| ==> r[i].Label() != r[j].Label())
    && (forall i, j :: 0 <= i < j < |r| ==> r[i].count >= r[j].count)
    && EntrySum(r) <= |rows|
  }

  lemma JobEntriesWellFormed(rows: seq<Posting>, t: seq<Tally>, k: nat)
    requires WellFormedTallies(Titles(rows), t, k)
    ensures WellFormedTrends(rows, JobEntries(t), k)
  {
    EntrySumOfJobs(t);
  }

  lemma CategoryEntriesWellFormed(rows: seq<Posting>, t: seq<Tally>, k: nat)
    requires WellFormedTallies(Categories(rows), t, k)
    ensures WellFormedTrends(rows, CategoryEntries(t), k)
  {
    EntrySumOfCategories(t);
  }

  /** Entries that leave out no more frequent value than they keep. */
  predicate Complete(col: seq<string>, r: seq<TrendEntry>) {
    forall v, i :: v in col && (forall j :: 0 <= j < |r| ==> r[j].Label() != v) && 0 <= i < |r| ==>
      Count(col, v) <= r[i].count
  }

  lemma JobEntriesComplete(col: seq<string>, k: nat)
    ensures Complete(col, JobEntries(MostFrequent(col, k)))
  {
    var t := MostFrequent(col, k);
    var r := JobEntries(t);
    MostFrequentComplete(col, k);
    forall v, i | v in col && (forall j :: 0 <= j < |r| ==> r[j].Label() != v) && 0 <= i < |r|
      ensures Count(col, v) <= r[i].count
    {
      assert forall j :: 0 <= j < |t| ==> t[j].value == r[j].Label();
    }
  }

  lemma CategoryEntriesComplete(col: seq<string>, k: nat)
    ensures Complete(col, CategoryEntries(MostFrequent(col, k)))
  {
    var t := MostFrequent(col, k);
    var r := CategoryEntries(t);
    MostFrequentComplete(col, k);
    forall v, i | v in col && (forall j :: 0 <= j < |r| ==> r[j].Label() != v) && 0 <= i < |r|
      ensures Count(col, v) <= r[i].count
    {
      assert forall j :: 0 <= j < |t| ==> t[j].value == r[j].Label();
    }
  }

  /** get_trending_jobs: title trends, well formed, one per distinct title up to
      top_k, and no title left out is more frequent than one kept. */
  lemma TrendingJobsSpec(rows: seq<Posting>, topK: nat)
    ensures var r := TrendingJobs(rows, topK);
      && WellFormedTrends(rows, r, topK)
      && (forall i :: 0 <= i < |r| ==> r[i].JobTrend?)
      && |r| == (if topK < |Uniques(Titles(rows))| then topK else |Uniques(Titles(rows))|)
      && Complete(Titles(rows), r)
  {
    MostFrequentWellFormed(Titles(rows), topK);
    JobEntriesWellFormed(rows, MostFrequent(Titles(rows), topK), topK);
    JobEntriesComplete(Titles(rows), topK);
  }

  /** get_trending_categories: category trends, well formed, one per distinct
      category up to top_k, and no category left out is more frequent than one
      kept. */
  lemma TrendingCategoriesSpec(rows: seq<Posting>, topK: nat)
    ensures var r := TrendingCategories(rows, topK);
      && WellFormedTrends(rows, r, topK)
      && (forall i :: 0 <= i < |r| ==> r[i].CategoryTrend?)
      && |r| == (if topK < |Uniques(Categories(rows))| then topK else |Uniques(Categories(rows))|)
      && Complete(Categories(rows), r)
  {
    MostFrequentWellFormed(Categories(rows), topK);
    CategoryEntriesWellFormed(rows, MostFrequent(Categories(rows), topK), topK);
    CategoryEntriesComplete(Categories(rows), topK);
  }

  /** get_trending: "categories" gives the category trends, "jobs" the title
      trends, any other query type nothing; whichever it is, the result is well
      formed. */
  lemma TrendingSpec(rows: seq<Posting>, queryType: string, topK: nat)
    ensures var r := Trending(rows, queryType, topK);
      && (queryType == "categories" ==> r == TrendingCategories(rows, topK))
      && (queryType == "jobs" ==> r == TrendingJobs(rows, topK))
      && (queryType != "categories" && queryType != "jobs" ==> r == [])
      && WellFormedTrends(rows, r, topK)
  {
    if queryType == "categories" {
      TrendingCategoriesSpec(rows, topK);
    } else if queryType == "jobs" {
      TrendingJobsSpec(rows, topK);
    }
  }
}
