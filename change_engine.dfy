/**
 * The delta engine (`calculate_metric_change`, `calculate_changes`): the change
 * of a metric between the latest sample and the one `offset` positions back,
 * with its rate in percent. Offset 1 is the day-over-day comparison and
 * offset 7 the week-over-week one.
 */
module ChangeEngine {
  import opened Optional
  import opened ChannelSeries

  /** Missing data is `None`, never zero. */
  datatype ChangeMetrics = ChangeMetrics(
    dailyChange: Option<int>,
    dailyRate: Option<real>,
    weeklyChange: Option<int>,
    weeklyRate: Option<real>)

  /** A freshly constructed `ChangeMetrics()`: every field absent. */
  const NoChange: ChangeMetrics := ChangeMetrics(None, None, None, None)

  const DayOffset: nat := 1
  const WeekOffset: nat := 7

  /** The metrics in the order the source visits them. */
  const MetricOrder: seq<Metric> := [SubscriberCount, ViewCount, VideoCount]

  /** Python's `s[k]`, where a negative k counts from the end. */
  function PyIndex<T>(s: seq<T>, k: int): (x: T)
    requires -|s| <= k < |s|
    ensures x == s[(k + |s|) % |s|]
  {
    if k < 0 then s[|s| + k] else s[k]
  }

  /**
   * The rate in percent, `change / previous * 100`, computed exactly; a zero
   * baseline gives 0 whatever the change.
   */
  function Rate(change: int, previous: int): (rate: real)
    ensures previous == 0 ==> rate == 0.0
    ensures previous != 0 ==> rate * (previous as real) == (change * 100) as real
  {
    if previous != 0 then (change as real) / (previous as real) * 100.0 else 0.0
  }

  /** The change from the sample offset positions before the last one to the last one; absent without enough history. */
  function ChangeOver(values: seq<int>, offset: nat): (change: Option<int>)
    ensures change.None? <==> |values| <= offset
    ensures change.Some? ==> change.value == PyIndex(values, -1) - PyIndex(values, -(offset + 1))
  {
    if |values| <= offset then None
    else Some(values[|values| - 1] - values[|values| - 1 - offset])
  }

  /** The rate belonging to ChangeOver, relative to the earlier sample. */
  function RateOver(values: seq<int>, offset: nat): (rate: Option<real>)
    ensures rate.None? <==> |values| <= offset
    ensures |values| > offset && values[|values| - 1 - offset] == 0 ==> rate == Some(0.0)
    ensures |values| > offset && values[|values| - 1 - offset] != 0 ==>
      var previous := values[|values| - 1 - offset];
      rate.value * (previous as real) == ((values[|values| - 1] - previous) * 100) as real
  {
    if |values| <= offset then None
    else
      var previous := values[|values| - 1 - offset];
      Some(Rate(values[|values| - 1] - previous, previous))
  }

  /** What `calculate_changes` reports for one metric: daily fields from offset 1, weekly fields from offset 7. */
  function DailyAndWeekly(values: seq<int>): (metrics: ChangeMetrics)
    ensures metrics.dailyChange.Some? <==> |values| >= 2
    ensures metrics.dailyRate.Some? <==> |values| >= 2
    ensures metrics.weeklyChange.Some? <==> |values| >= 8
    ensures metrics.weeklyRate.Some? <==> |values| >= 8
  {
    ChangeMetrics(
      ChangeOver(values, DayOffset), RateOver(values, DayOffset),
      ChangeOver(values, WeekOffset), RateOver(values, WeekOffset))
  }

  /**
   * `calculate_metric_change`: all fields absent when the list has no more
   * than offset entries; otherwise offset 1 fills only the daily fields and
   * every other offset only the weekly ones.
   */
  method CalculateMetricChange(values: seq<int>, offset: nat) returns (metrics: ChangeMetrics)
    ensures |values| <= offset ==> metrics == NoChange
    ensures offset == 1 ==> metrics == ChangeMetrics(ChangeOver(values, offset), RateOver(values, offset), None, None)
    ensures offset != 1 ==> metrics == ChangeMetrics(None, None, ChangeOver(values, offset), RateOver(values, offset))
  {
    metrics := NoChange;
    if |values| <= offset {
      return;
    }
    var current := PyIndex(values, -1);
    var previous := PyIndex(values, -(offset + 1));
    var change := current - previous;
    var rate := Rate(change, previous);
    if offset == 1 {
      metrics := metrics.(dailyChange := Some(change), dailyRate := Some(rate));
    } else {
      metrics := metrics.(weeklyChange := Some(change), weeklyRate := Some(rate));
    }
  }

  /**
   * `calculate_changes`: one entry per metric key, each combining the daily
   * fields of the offset-1 comparison with the weekly fields of the offset-7
   * comparison of that metric's own list.
   */
  method CalculateChanges(data: ChannelData) returns (result: map<string, ChangeMetrics>)
    ensures result.Keys == {"subscriber_count", "view_count", "video_count"}
    ensures forall m: Metric :: m.Key() in result && result[m.Key()] == DailyAndWeekly(Values(data, m))
  {
    result := map[];
    for i := 0 to |MetricOrder|
      invariant result.Keys == set j | 0 <= j < i :: MetricOrder[j].Key()
      invariant forall j :: 0 <= j < i ==> result[MetricOrder[j].Key()] == DailyAndWeekly(Values(data, MetricOrder[j]))
    {
      var key := MetricOrder[i];
      var values := Values(data, key);
      var daily := CalculateMetricChange(values, DayOffset);
      var weekly := CalculateMetricChange(values, WeekOffset);
      result := result[key.Key() := ChangeMetrics(daily.dailyChange, daily.dailyRate, weekly.weeklyChange, weekly.weeklyRate)];
    }
    assert result.Keys == {MetricOrder[0].Key(), MetricOrder[1].Key(), MetricOrder[2].Key()};
  }

  /**
   * On counts (never negative) the rate has the sign of the change, so the
   * one sign prefix the formatter puts on both reads correctly for both.
   */
  lemma RateSignAgrees(values: seq<nat>, offset: nat)
    requires |values| > offset
    ensures ChangeOver(values, offset).value >= 0 <==> RateOver(values, offset).value >= 0.0
  {
    var previous := values[|values| - 1 - offset];
    var change := values[|values| - 1] as int - previous as int;
    var rate := Rate(change, previous);
    if previous != 0 {
      assert rate * (previous as real) == (change * 100) as real;
      assert previous as real > 0.0;
      if change >= 0 {
        assert (change * 100) as real >= 0.0;
      } else {
        assert (change * 100) as real < 0.0;
      }
    }
  }

  /** Subscribers 100 then 110: a change of +10 and a rate of 10 percent. */
  lemma DailyExample()
    ensures ChangeOver([100, 110], DayOffset) == Some(10)
    ensures RateOver([100, 110], DayOffset) == Some(10.0)
  {
  }

  /** Subscribers 0 then 5: a change of +5 and, by the zero-baseline rule, a rate of 0. */
  lemma ZeroBaselineExample()
    ensures ChangeOver([0, 5], DayOffset) == Some(5)
    ensures RateOver([0, 5], DayOffset) == Some(0.0)
  {
  }

  /** Five samples are too few for a week-over-week comparison. */
  lemma FiveSamplesNoWeekly(values: seq<int>)
    requires |values| == 5
    ensures DailyAndWeekly(values).weeklyChange == None && DailyAndWeekly(values).weeklyRate == None
    ensures DailyAndWeekly(values).dailyChange.Some?
  {
  }
}
