/** Intelligent insights: an analysis progress ticker restarted whenever the chart or the time
    range changes, the four generated insights, the stage label and the summary figures. */
module Insights {
  import opened Common

  datatype InsightType = Trend | Anomaly | Prediction | Recommendation
  datatype Impact = High | Medium | Low

  datatype InsightData =
    | TrendData(growthRate: real, trend: string)
    | AnomalyData(anomalyCount: int, severity: string)
    | PredictionData(predictedGrowth: int, timeframe: string)
    | RecommendationData(chartType: string, optimization: string)

  datatype Insight = Insight(id: string, kind: InsightType, title: string, description: string,
                             confidence: int, impact: Impact, actionable: bool, data: InsightData)

  /** The time-range wording: anything but "7d" and "30d" reads as 90 days. */
  function RangeLabel(timeRange: string): (r: string)
    ensures r == "7天" <==> timeRange == "7d"
    ensures r == "30天" <==> timeRange == "30d"
    ensures r == "90天" <==> timeRange != "7d" && timeRange != "30d"
  {
    if timeRange == "7d" then "7天" else if timeRange == "30d" then "30天" else "90天"
  }

  /** The chart wording: anything but "bar" and "line" reads as a pie chart. */
  function ChartLabel(chart: string): (r: string)
    ensures r == "柱状图" <==> chart == "bar"
    ensures r == "折线图" <==> chart == "line"
    ensures r == "饼图" <==> chart != "bar" && chart != "line"
  {
    if chart == "bar" then "柱状图" else if chart == "line" then "折线图" else "饼图"
  }

  /** `generateInsights()` for the current chart and time range. */
  function GenerateInsights(chart: string, timeRange: string): (r: seq<Insight>)
    ensures |r| == 4
    ensures r[0].kind == Trend && r[1].kind == Anomaly && r[2].kind == Prediction
    ensures r[3].kind == Recommendation
    ensures r[3].data == RecommendationData(chart, "add_labels")
    ensures forall k :: 0 <= k < 4 ==> 0 <= r[k].confidence <= 100
  {
    [Insight("1", Trend, "上升趋势检测",
             "在过去" + RangeLabel(timeRange) + "内检测到显著的上升趋势，增长率达到23.5%",
             94, High, true, TrendData(23.5, "upward")),
     Insight("2", Anomaly, "异常值识别", "发现3个数据异常点，可能影响整体分析准确性，建议进一步调查",
             87, Medium, true, AnomalyData(3, "medium")),
     Insight("3", Prediction, "未来趋势预测", "基于当前数据模式，预测未来7天将继续保持增长态势，预期增长15%",
             78, High, false, PredictionData(15, "7天")),
     Insight("4", Recommendation, "可视化优化建议",
             "当前" + ChartLabel(chart) + "适合展示此类数据，建议添加数据标签以提高可读性",
             91, Medium, true, RecommendationData(chart, "add_labels"))]
  }

  /** The stage shown under the progress bar. */
  function StageLabel(progress: int): (r: string)
    ensures r == "数据预处理" <==> progress < 30
    ensures r == "模式识别" <==> 30 <= progress < 60
    ensures r == "趋势分析" <==> 60 <= progress < 90
    ensures r == "生成洞察" <==> progress >= 90
  {
    if progress < 30 then "数据预处理"
    else if progress < 60 then "模式识别"
    else if progress < 90 then "趋势分析"
    else "生成洞察"
  }

  /** Sum of the confidences: between 0 and 100 per insight when every confidence is a
      percentage. */
  function ConfidenceSum(insights: seq<Insight>): (r: int)
    ensures (forall k :: 0 <= k < |insights| ==> 0 <= insights[k].confidence <= 100) ==>
              0 <= r <= 100 * |insights|
  {
    if insights == [] then 0
    else ConfidenceSum(insights[..|insights| - 1]) + insights[|insights| - 1].confidence
  }

  /** The two tests the summary card counts with `filter(...).length`. */
  predicate IsHighImpact(i: Insight) {
    i.impact == High
  }

  predicate IsActionable(i: Insight) {
    i.actionable
  }

  datatype Summary = Summary(total: nat, highImpact: nat, meanConfidence: int, actionable: nat)

  /** The summary card, shown only when there is at least one insight: count, high-impact count,
      `Math.round` of the mean confidence, actionable count. */
  function Summarize(insights: seq<Insight>): (s: Summary)
    requires |insights| > 0
    requires forall k :: 0 <= k < |insights| ==> 0 <= insights[k].confidence <= 100
    ensures s.total == |insights|
    ensures s.highImpact <= s.total && s.actionable <= s.total
    ensures 0 <= s.meanConfidence <= 100
    ensures s.highImpact == CountWhere(insights, IsHighImpact)
    ensures s.actionable == CountWhere(insights, IsActionable)
    ensures 2 * s.total * s.meanConfidence <= 2 * ConfidenceSum(insights) + s.total
              < 2 * s.total * s.meanConfidence + 2 * s.total
  {
    var sum := ConfidenceSum(insights);
    var mean := RoundHalfUp(sum, |insights|);
    RoundBounds(sum, |insights|, mean);
    Summary(|insights|,
            CountWhere(insights, IsHighImpact),
            mean,
            CountWhere(insights, IsActionable))
  }

  /** Summarising two lists together adds their high-impact and actionable counts. */
  lemma SummaryCountsAdd(a: seq<Insight>, b: seq<Insight>)
    requires |a| > 0 && |b| > 0
    requires forall k :: 0 <= k < |a| ==> 0 <= a[k].confidence <= 100
    requires forall k :: 0 <= k < |b| ==> 0 <= b[k].confidence <= 100
    ensures Summarize(a + b).total == Summarize(a).total + Summarize(b).total
    ensures Summarize(a + b).highImpact == Summarize(a).highImpact + Summarize(b).highImpact
    ensures Summarize(a + b).actionable == Summarize(a).actionable + Summarize(b).actionable
  {
    assert forall k :: 0 <= k < |a + b| ==> (a + b)[k] == if k < |a| then a[k] else b[k - |a|];
    CountWhereConcat(a, b, IsHighImpact);
    CountWhereConcat(a, b, IsActionable);
  }

  /** The generated insights always summarise as 4 insights, 2 of high impact, a mean
      confidence of 88 (350 / 4 = 87.5, rounded up) and 3 actionable. */
  lemma GeneratedSummary(chart: string, timeRange: string)
    ensures Summarize(GenerateInsights(chart, timeRange)) == Summary(4, 2, 88, 3)
  {
    var r := GenerateInsights(chart, timeRange);
    var high := IsHighImpact;
    var act := IsActionable;
    assert r[..3][..2][..1][..0] == [];
    assert r[..3][..2][..1] == [r[0]];
    assert r[..3][..2] == [r[0], r[1]];
    assert ConfidenceSum(r[..3][..2][..1]) == 94 && CountWhere(r[..3][..2][..1], high) == 1
        && CountWhere(r[..3][..2][..1], act) == 1;
    assert ConfidenceSum(r[..3][..2]) == 181 && CountWhere(r[..3][..2], high) == 1
        && CountWhere(r[..3][..2], act) == 2;
    assert ConfidenceSum(r[..3]) == 259 && CountWhere(r[..3], high) == 2
        && CountWhere(r[..3], act) == 2;
    assert ConfidenceSum(r) == 350 && CountWhere(r, high) == 2 && CountWhere(r, act) == 3;
  }

  /** The ticker as a value: progress and whether analysis is running. */
  datatype Ticker = Ticker(progress: int, analyzing: bool)

  /** One firing of the 200 ms interval: below 100 it adds 10; at 100 or more it stops the
      analysis and pins the progress at 100. */
  function Tick(t: Ticker): (r: Ticker)
    ensures t.progress < 100 ==> r == Ticker(t.progress + 10, t.analyzing)
    ensures t.progress >= 100 ==> r == Ticker(100, false)
  {
    if t.progress >= 100 then Ticker(100, false) else Ticker(t.progress + 10, t.analyzing)
  }

  /** n firings after a restart, as long as the interval has not been cleared. */
  function TicksFromRestart(n: nat): Ticker {
    if n == 0 then Ticker(0, true) else Tick(TicksFromRestart(n - 1))
  }

  /** After a restart the progress climbs by 10 per tick, and the eleventh tick ends the
      analysis at 100. */
  lemma {:induction false} TickerTimeline(n: nat)
    ensures n <= 10 ==> TicksFromRestart(n) == Ticker(10 * n, true)
    ensures n == 11 ==> TicksFromRestart(n) == Ticker(100, false)
  {
    if n > 0 && n <= 11 {
      TickerTimeline(n - 1);
    }
  }

  class IntelligentInsights {
    var selectedChart: string
    var timeRange: string
    var insights: seq<Insight>
    var isAnalyzing: bool
    var analysisProgress: int

    /** The interval runs exactly while analysing; progress stays a multiple of 10 in [0, 100]. */
    ghost predicate Valid()
      reads this
    {
      0 <= analysisProgress <= 100 && analysisProgress % 10 == 0
      && (!isAnalyzing ==> analysisProgress == 100)
    }

    /** Mounting runs the effect once. */
    constructor (chart: string, range: string)
      ensures Valid()
      ensures selectedChart == chart && timeRange == range
      ensures insights == [] && isAnalyzing && analysisProgress == 0
    {
      selectedChart := chart;
      timeRange := range;
      insights := [];
      isAnalyzing := true;
      analysisProgress := 0;
    }

    /** A new chart or time range: the effect restarts the analysis; old insights stay. */
    method Restart(chart: string, range: string)
      modifies this
      ensures Valid()
      ensures selectedChart == chart && timeRange == range
      ensures insights == old(insights) && isAnalyzing && analysisProgress == 0
    {
      selectedChart := chart;
      timeRange := range;
      isAnalyzing := true;
      analysisProgress := 0;
    }

    /** One firing of the interval, which only fires while analysing. */
    method TickOnce()
      requires Valid() && isAnalyzing
      modifies this`analysisProgress, this`isAnalyzing, this`insights
      ensures Valid()
      ensures Ticker(analysisProgress, isAnalyzing) == Tick(Ticker(old(analysisProgress), true))
      ensures old(analysisProgress) >= 100 ==> insights == GenerateInsights(selectedChart, timeRange)
      ensures old(analysisProgress) < 100 ==> insights == old(insights)
      ensures old(analysisProgress) >= 100 ==> SummaryShown()
    {
      if analysisProgress >= 100 {
        insights := GenerateInsights(selectedChart, timeRange);
        isAnalyzing := false;
        analysisProgress := 100;
      } else {
        analysisProgress := analysisProgress + 10;
      }
    }

    /** The summary card is rendered once analysis is over and there are insights. */
    function SummaryShown(): (r: bool)
      reads this
      ensures r ==> !isAnalyzing && insights != []
    {
      !isAnalyzing && |insights| > 0
    }

    /** The stage label under the progress bar. */
    function Stage(): (r: string)
      reads this
      ensures analysisProgress >= 90 <==> r == "生成洞察"
    {
      StageLabel(analysisProgress)
    }
  }
}
