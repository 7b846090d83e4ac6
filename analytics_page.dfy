/** The summary figures of the analytics dashboard. */
module AnalyticsPage {
  import opened Wrappers
  import opened Seqs

  /** A point of `userEngagement`. */
  datatype EngagementPoint = EngagementPoint(activeUsers: int, contentInteractions: int)
  /** A row of `contentPerformance`. */
  datatype CategoryViews = CategoryViews(views: int)
  /** A row of `userDemographics`. */
  datatype AgeGroupCount = AgeGroupCount(count: int)

  /** `calculateTotalUsers`: 0 when undefined, otherwise the sum of the counts. */
  function TotalUsers(demographics: Option<seq<AgeGroupCount>>): (n: int)
    ensures demographics.None? ==> n == 0
  {
    if demographics.None? then 0 else SumBy(demographics.value, (r: AgeGroupCount) => r.count)
  }

  /** The total over two lists of groups is the sum of their totals; no group counts zero. */
  lemma TotalUsersAdditive(a: seq<AgeGroupCount>, b: seq<AgeGroupCount>)
    ensures TotalUsers(Some([])) == 0
    ensures TotalUsers(Some(a + b)) == TotalUsers(Some(a)) + TotalUsers(Some(b))
  {
    SumByAppend(a, b, (r: AgeGroupCount) => r.count);
  }

  /** One group counts exactly its own members. */
  lemma TotalUsersSingle(g: AgeGroupCount)
    ensures TotalUsers(Some([g])) == g.count
  {
    TotalUsersAdditive([], [g]);
    assert [] + [g] == [g];
    assert [g][..|[g]| - 1] == [];
  }

  /** `calculateTotalViews`: 0 when undefined, otherwise the sum of the views. */
  function TotalViews(content: Option<seq<CategoryViews>>): (n: int)
    ensures content.None? ==> n == 0
    ensures content == Some([]) ==> n == 0
  {
    if content.None? then 0 else SumBy(content.value, (r: CategoryViews) => r.views)
  }

  /** The total over two lists of categories is the sum of their totals. */
  lemma TotalViewsAdditive(a: seq<CategoryViews>, b: seq<CategoryViews>)
    ensures TotalViews(Some(a + b)) == TotalViews(Some(a)) + TotalViews(Some(b))
  {
    SumByAppend(a, b, (r: CategoryViews) => r.views);
  }

  /** One category counts exactly its own views. */
  lemma TotalViewsSingle(r: CategoryViews)
    ensures TotalViews(Some([r])) == r.views
  {
    TotalViewsAdditive([], [r]);
    assert [] + [r] == [r];
    assert [r][..|[r]| - 1] == [];
  }

  /** Counts that are never negative give a total that is not negative either. */
  lemma TotalViewsNonNegative(content: seq<CategoryViews>)
    requires forall i :: 0 <= i < |content| ==> content[i].views >= 0
    ensures TotalViews(Some(content)) >= 0
  {
    SumByAtLeast(content, (r: CategoryViews) => r.views, 0);
  }

  /**
   * `Math.round(num / den)`: the nearest integer to the exact quotient,
   * halves going up, as `Math.round` rounds them.
   */
  function RoundDiv(num: int, den: int): (r: int)
    requires den != 0
    ensures den > 0 ==> den * (2 * r - 1) <= 2 * num < den * (2 * r + 1)
    ensures den < 0 ==> -den * (2 * r - 1) <= -2 * num < -den * (2 * r + 1)
  {
    var n, d := if den > 0 then num else -num, if den > 0 then den else -den;
    (2 * n + d) / (2 * d)
  }

  /** The rounding bound has one solution, so `RoundDiv` is the only rounding that meets it. */
  lemma RoundDivUnique(num: int, den: int, r: int)
    requires den > 0
    requires den * (2 * r - 1) <= 2 * num < den * (2 * r + 1)
    ensures r == RoundDiv(num, den)
  {
    var q := RoundDiv(num, den);
    CancelFactor(den, 2 * r - 1, 2 * q + 1);
    CancelFactor(den, 2 * q - 1, 2 * r + 1);
  }

  /** A positive factor can be cancelled from a strict inequality. */
  lemma CancelFactor(d: int, a: int, b: int)
    requires d > 0 && d * a < d * b
    ensures a < b
  {
  }

  /** An exact quotient is returned as is. */
  lemma RoundDivExact(k: int, den: int)
    requires den != 0
    ensures RoundDiv(k * den, den) == k
  {
    if den > 0 {
      RoundDivUnique(k * den, den, k);
    } else {
      RoundDivUnique(-(k * den), -den, k);
    }
  }

  /** The interactions of all engagement points added up. */
  function InteractionsTotal(engagement: seq<EngagementPoint>): (n: int)
    ensures engagement == [] ==> n == 0
  {
    SumBy(engagement, (p: EngagementPoint) => p.contentInteractions)
  }

  /** The total over two lists of points is the sum of their totals. */
  lemma InteractionsTotalAdditive(a: seq<EngagementPoint>, b: seq<EngagementPoint>)
    ensures InteractionsTotal(a + b) == InteractionsTotal(a) + InteractionsTotal(b)
  {
    SumByAppend(a, b, (p: EngagementPoint) => p.contentInteractions);
  }

  /** One point totals its own interactions. */
  lemma InteractionsTotalSingle(point: EngagementPoint)
    ensures InteractionsTotal([point]) == point.contentInteractions
  {
    SumBySingle(point, (p: EngagementPoint) => p.contentInteractions);
  }

  /**
   * `calculateAverageEngagement`: 0 when undefined or empty, otherwise the
   * rounded mean number of interactions.
   */
  function AverageEngagement(engagement: Option<seq<EngagementPoint>>): (avg: int)
    ensures engagement.None? || engagement.value == [] ==> avg == 0
    ensures engagement.Some? && engagement.value != [] ==>
      var n := |engagement.value|;
      n * (2 * avg - 1) <= 2 * InteractionsTotal(engagement.value) < n * (2 * avg + 1)
  {
    if engagement.None? || engagement.value == [] then 0
    else RoundDiv(InteractionsTotal(engagement.value), |engagement.value|)
  }

  /** Points that all have the same number of interactions average to that number. */
  lemma AverageOfConstant(engagement: seq<EngagementPoint>, c: int)
    requires engagement != []
    requires forall i :: 0 <= i < |engagement| ==> engagement[i].contentInteractions == c
    ensures AverageEngagement(Some(engagement)) == c
  {
    SumByConstant(engagement, (p: EngagementPoint) => p.contentInteractions, c);
    assert InteractionsTotal(engagement) == c * |engagement|;
    RoundDivExact(c, |engagement|);
  }

  /** A growth rate, or the `Infinity`/`NaN` a zero first value gives. */
  datatype Growth = Finite(percent: int) | NonFinite

  /**
   * `calculateGrowthRate`: 0 with fewer than two points; otherwise the
   * change of active users from the first point to the last, as a rounded
   * percentage of the first.
   */
  function GrowthRate(engagement: Option<seq<EngagementPoint>>): (g: Growth)
    ensures engagement.None? || |engagement.value| < 2 ==> g == Finite(0)
    ensures engagement.Some? && |engagement.value| >= 2 ==>
      var first, last := engagement.value[0].activeUsers, engagement.value[|engagement.value| - 1].activeUsers;
      && (first == 0 <==> g.NonFinite?)
      && (first > 0 ==> first * (2 * g.percent - 1) <= 200 * (last - first) < first * (2 * g.percent + 1))
      && (first < 0 ==> -first * (2 * g.percent - 1) <= -200 * (last - first) < -first * (2 * g.percent + 1))
  {
    if engagement.None? || |engagement.value| < 2 then Finite(0)
    else
      var first := engagement.value[0].activeUsers;
      var last := engagement.value[|engagement.value| - 1].activeUsers;
      if first == 0 then NonFinite else Finite(RoundDiv(100 * (last - first), first))
  }

  /** Only the first and last points matter to the growth rate. */
  lemma GrowthRateEndsOnly(a: seq<EngagementPoint>, b: seq<EngagementPoint>)
    requires |a| >= 2 && |b| >= 2
    requires a[0].activeUsers == b[0].activeUsers && a[|a| - 1].activeUsers == b[|b| - 1].activeUsers
    ensures GrowthRate(Some(a)) == GrowthRate(Some(b))
  {
  }

  /** No change from the first point to the last is a growth of 0%. */
  lemma FlatGrowthIsZero(engagement: seq<EngagementPoint>)
    requires |engagement| >= 2 && engagement[0].activeUsers != 0
    requires engagement[0].activeUsers == engagement[|engagement| - 1].activeUsers
    ensures GrowthRate(Some(engagement)) == Finite(0)
  {
    RoundDivExact(0, engagement[0].activeUsers);
  }
}
