/** The aggregation helpers of the analytics service. */
module AnalyticsService {
  import opened Wrappers
  import opened Seqs

  /** A `user_activities` row, reduced to its `interaction_weight`. */
  datatype UserActivity = UserActivity(interactionWeight: Option<int>)

  /** `activity.interaction_weight || 1`: a missing or zero weight counts as one. */
  function Weight(a: UserActivity): (w: int)
    ensures a.interactionWeight.None? || a.interactionWeight.value == 0 ==> w == 1
    ensures a.interactionWeight.Some? && a.interactionWeight.value != 0 ==> w == a.interactionWeight.value
  {
    match a.interactionWeight
    case None => 1
    case Some(v) => if v == 0 then 1 else v
  }

  /** The `reduce` of `calculateEngagementLevel`: the weights of the user's activities added up. */
  function EngagementScore(activities: seq<UserActivity>): (score: int)
    ensures activities == [] ==> score == 0
  {
    SumBy(activities, Weight)
  }

  /** One activity scores its own weight. */
  lemma EngagementScoreSingle(a: UserActivity)
    ensures EngagementScore([a]) == Weight(a)
  {
    SumBySingle(a, Weight);
  }

  /** The score over two lists of activities is the sum of their scores. */
  lemma EngagementScoreAdditive(a: seq<UserActivity>, b: seq<UserActivity>)
    ensures EngagementScore(a + b) == EngagementScore(a) + EngagementScore(b)
  {
    SumByAppend(a, b, Weight);
  }

  /** Activities that carry no weight of their own score one point each. */
  lemma UnweightedScoreIsCount(activities: seq<UserActivity>)
    requires forall i :: 0 <= i < |activities| ==> activities[i].interactionWeight.None?
    ensures EngagementScore(activities) == |activities|
  {
    SumByConstant(activities, Weight, 1);
  }

  /** Weights that are all positive score at least one point per activity. */
  lemma PositiveWeightsScoreAtLeastCount(activities: seq<UserActivity>)
    requires forall i :: 0 <= i < |activities| ==> activities[i].interactionWeight.None? || activities[i].interactionWeight.value > 0
    ensures EngagementScore(activities) >= |activities|
  {
    SumByAtLeast(activities, Weight, 1);
  }

  datatype EngagementLevel = High | Medium | Low

  /** `calculateEngagementLevel`: the thresholds 100 and 50 on the score. */
  function EngagementLevelOf(activities: seq<UserActivity>): (level: EngagementLevel)
    ensures level == High <==> EngagementScore(activities) > 100
    ensures level == Medium <==> 50 < EngagementScore(activities) <= 100
    ensures level == Low <==> EngagementScore(activities) <= 50
  {
    var score := EngagementScore(activities);
    if score > 100 then High
    else if score > 50 then Medium
    else Low
  }

  /** The level never falls as activities are added, when every weight is positive. */
  lemma {:induction false} LevelMonotone(activities: seq<UserActivity>, more: seq<UserActivity>)
    requires forall i :: 0 <= i < |more| ==> more[i].interactionWeight.None? || more[i].interactionWeight.value > 0
    ensures EngagementScore(activities + more) >= EngagementScore(activities)
    ensures EngagementLevelOf(activities) == High ==> EngagementLevelOf(activities + more) == High
    ensures EngagementLevelOf(activities) == Medium ==> EngagementLevelOf(activities + more) != Low
  {
    SumByAppend(activities, more, Weight);
    SumByAtLeast(more, Weight, 1);
  }

  /** A `content_audience` row. */
  datatype AudienceRecord = AudienceRecord(group: string, count: int)

  /** The groups that occur in the records. */
  function Groups(records: seq<AudienceRecord>): set<string> {
    set i | 0 <= i < |records| :: records[i].group
  }

  /** The sum of the counts of the records of group `g`. */
  function GroupTotal(records: seq<AudienceRecord>, g: string): int {
    SumBy(records, (r: AudienceRecord) => if r.group == g then r.count else 0)
  }

  /** A group that does not occur has total zero. */
  lemma {:induction false} AbsentGroupTotal(records: seq<AudienceRecord>, g: string)
    requires g !in Groups(records)
    ensures GroupTotal(records, g) == 0
  {
    if records != [] {
      var init := records[..|records| - 1];
      assert Groups(init) <= Groups(records) by {
        forall x | x in Groups(init) ensures x in Groups(records) {
          var i :| 0 <= i < |init| && init[i].group == x;
          assert records[i].group == x;
        }
      }
      AbsentGroupTotal(init, g);
      assert records[|records| - 1].group in Groups(records);
    }
  }

  /** Extending the records by one adds that record's count to its own group only. */
  lemma GroupTotalSnoc(records: seq<AudienceRecord>, r: AudienceRecord, g: string)
    ensures GroupTotal(records + [r], g) == GroupTotal(records, g) + (if r.group == g then r.count else 0)
    ensures Groups(records + [r]) == Groups(records) + {r.group}
  {
    assert (records + [r])[..|records|] == records;
    var s := records + [r];
    forall x | x in Groups(s) ensures x in Groups(records) + {r.group} {
      var i :| 0 <= i < |s| && s[i].group == x;
      if i < |records| { assert records[i].group == x; }
    }
    forall x | x in Groups(records) ensures x in Groups(s) {
      var i :| 0 <= i < |records| && records[i].group == x;
      assert s[i].group == x;
    }
    assert s[|records|].group == r.group;
  }

  /**
   * `aggregateDemographics`: the dictionary maps each group that occurs to
   * the sum of its counts, and holds no other key; no data gives `{}`.
   */
  method AggregateDemographics(data: Option<seq<AudienceRecord>>) returns (acc: map<string, int>)
    ensures data.None? ==> acc == map[]
    ensures data.Some? ==> acc.Keys == Groups(data.value)
    ensures data.Some? ==> forall g :: g in acc ==> acc[g] == GroupTotal(data.value, g)
  {
    acc := map[];
    if data.None? {
      return;
    }
    var records := data.value;
    var i := 0;
    while i < |records|
      invariant 0 <= i <= |records|
      invariant acc.Keys == Groups(records[..i])
      invariant forall g :: g in acc ==> acc[g] == GroupTotal(records[..i], g)
    {
      var r := records[i];
      var prev := if r.group in acc then acc[r.group] else 0;
      if r.group !in acc {
        AbsentGroupTotal(records[..i], r.group);
      }
      acc := acc[r.group := prev + r.count];
      assert records[..i + 1] == records[..i] + [r];
      forall g | g in acc ensures acc[g] == GroupTotal(records[..i + 1], g) {
        GroupTotalSnoc(records[..i], r, g);
      }
      GroupTotalSnoc(records[..i], r, r.group);
      i := i + 1;
    }
    assert records[..i] == records;
  }

  /** An `engagement_metrics` row. */
  datatype EngagementRow = EngagementRow(activeUsers: int, sessionDuration: int)

  datatype TimeRange = Day | Week | Month

  /** `calculateActiveUsers`: 0 without data, otherwise the sum of `active_users`; the range is unused. */
  function ActiveUsers(data: Option<seq<EngagementRow>>, range: TimeRange): (n: int)
    ensures data.None? || data == Some([]) ==> n == 0
  {
    if data.None? then 0 else SumBy(data.value, (r: EngagementRow) => r.activeUsers)
  }

  /** The figure over two lists of rows is the sum of their figures. */
  lemma ActiveUsersAdditive(a: seq<EngagementRow>, b: seq<EngagementRow>, range: TimeRange)
    ensures ActiveUsers(Some(a + b), range) == ActiveUsers(Some(a), range) + ActiveUsers(Some(b), range)
  {
    SumByAppend(a, b, (r: EngagementRow) => r.activeUsers);
  }

  /** One row counts its own active users. */
  lemma ActiveUsersSingle(row: EngagementRow, range: TimeRange)
    ensures ActiveUsers(Some([row]), range) == row.activeUsers
  {
    SumBySingle(row, (r: EngagementRow) => r.activeUsers);
  }

  /** The daily, weekly and monthly figures of `getEngagementMetrics` are always equal. */
  lemma ActiveUsersIgnoresRange(data: Option<seq<EngagementRow>>)
    ensures ActiveUsers(data, Day) == ActiveUsers(data, Week) == ActiveUsers(data, Month)
  {
  }

  /** `calculateAverageSessionDuration`: 0 without data or rows, otherwise the mean duration. */
  function AverageSessionDuration(data: Option<seq<EngagementRow>>): (avg: real)
    ensures data.None? || data.value == [] ==> avg == 0.0
    ensures data.Some? && data.value != [] ==>
      avg * (|data.value| as real) == SumBy(data.value, (r: EngagementRow) => r.sessionDuration) as real
  {
    if data.None? || data.value == [] then 0.0
    else SumBy(data.value, (r: EngagementRow) => r.sessionDuration) as real / (|data.value| as real)
  }

  /** A `content_metrics` row, reduced to the figures the content insights read. */
  datatype ContentMetrics = ContentMetrics(views: Option<int>, conversions: int)

  /**
   * The value handed to the metric helpers: one row, or the list of rows a
   * query without `.single()` yields.
   */
  datatype MetricsValue = OneRow(row: ContentMetrics) | RowList(rows: seq<ContentMetrics>)

  /** `metricsData.views`: a list has no `views` property, so it reads as undefined. */
  function ViewsOf(m: MetricsValue): (v: Option<int>)
    ensures m.RowList? ==> v.None?
    ensures m.OneRow? ==> v == m.row.views
  {
    match m
    case OneRow(row) => row.views
    case RowList(_) => None
  }

  /** `calculateConversionRate`: 0 without data or with no views, otherwise conversions per hundred views. */
  function ConversionRate(metrics: Option<MetricsValue>): (rate: real)
    ensures metrics.None? || ViewsOf(metrics.value).None? || ViewsOf(metrics.value).value == 0 ==> rate == 0.0
    ensures metrics.Some? && metrics.value.OneRow? && metrics.value.row.views.Some? && metrics.value.row.views.value != 0 ==>
      rate * (metrics.value.row.views.value as real) == 100.0 * (metrics.value.row.conversions as real)
  {
    if metrics.None? then 0.0
    else match metrics.value
      case RowList(_) => 0.0
      case OneRow(row) =>
        if row.views.None? || row.views.value == 0 then 0.0
        else (row.conversions as real / row.views.value as real) * 100.0
  }

  /** The `performance` figures of a content insight that the model covers. */
  datatype Performance = Performance(views: int, conversion: real)

  /**
   * `getContentInsights` as written: the `content_metrics` query has no
   * `.single()`, so the list of rows reaches `metricsData?.views || 0` and
   * `calculateConversionRate`.
   */
  function PerformanceAsWritten(queried: Option<seq<ContentMetrics>>): (p: Performance)
    ensures queried.None? ==> p == Performance(0, 0.0)
  {
    match queried
    case None => Performance(0, ConversionRate(None))
    case Some(rows) => Performance(ViewsOf(RowList(rows)).GetOr(0), ConversionRate(Some(RowList(rows))))
  }

  /** As written, views and conversion are 0 whatever the table holds. */
  lemma AsWrittenPerformanceIsZero(queried: Option<seq<ContentMetrics>>)
    ensures PerformanceAsWritten(queried) == Performance(0, 0.0)
  {
  }

  /** A content item with 200 views and 10 conversions reports neither. */
  lemma AsWrittenLosesMetrics()
    ensures PerformanceAsWritten(Some([ContentMetrics(Some(200), 10)])) == Performance(0, 0.0)
  {
  }

  /** The intended figures: the single metrics row of the content item, fetched with `.single()`. */
  function ContentPerformance(queried: Option<ContentMetrics>): (p: Performance)
    ensures queried.None? ==> p == Performance(0, 0.0)
    ensures queried.Some? ==> p.views == queried.value.views.GetOr(0)
    ensures queried.Some? && queried.value.views.GetOr(0) == 0 ==> p.conversion == 0.0
    ensures queried.Some? && queried.value.views.Some? && queried.value.views.value != 0 ==>
      p.conversion * (queried.value.views.value as real) == 100.0 * (queried.value.conversions as real)
  {
    match queried
    case None => Performance(0, ConversionRate(None))
    case Some(row) => Performance(ViewsOf(OneRow(row)).GetOr(0), ConversionRate(Some(OneRow(row))))
  }

  /** With the single row, the same 200 views and 10 conversions give a rate of 5. */
  lemma CorrectedKeepsMetrics()
    ensures ContentPerformance(Some(ContentMetrics(Some(200), 10))) == Performance(200, 5.0)
  {
  }
}
