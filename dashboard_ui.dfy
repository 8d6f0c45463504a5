/**
 * The dashboard side of frontend/script.js: decoding the service's answer,
 * the state the submit handler drives (result panel, badge, probability bar,
 * the two lists, the doughnut chart slot and the "predictions today" counter)
 * and the synthetic trend series built once at start-up.
 *
 * `PageState` is the observable state as a value, and `Succeed`, `Fail` and `Step`
 * say what one handled submission does to it. The class `Dashboard` keeps the
 * same state in fields that its methods update in place, and each method is
 * proved to perform the corresponding transition.
 */
module DashboardUi {
  import opened Optional
  import opened ChurnRules

  // ---------------------------------------------------------------------
  // Decoding the service's answer
  // ---------------------------------------------------------------------

  /** The parsed JSON body of a successful response; either field may be missing or null. */
  datatype ResponseBody = ResponseBody(prediction: Option<real>, probability: Option<real>)

  /**
   * What the `fetch` call produces: a failure to connect, or a status with a
   * body that parses as JSON (`Some`) or does not (`None`).
   */
  datatype Reply = NetworkFailure | HttpReply(status: int, body: Option<ResponseBody>)

  /** `response.ok`. */
  predicate StatusOk(status: int)
  {
    200 <= status <= 299
  }

  /** The reply reaches the success path: it arrived, its status is ok and its body parsed. */
  predicate Succeeds(reply: Reply)
  {
    reply.HttpReply? && StatusOk(reply.status) && reply.body.Some?
  }

  /** `result.prediction === 1 ? 'Churn' : 'No Churn'`. */
  function DecodeLabel(body: ResponseBody): (verdict: Label)
    ensures verdict == Churn <==> body.prediction == Some(1.0)
  {
    if body.prediction == Some(1.0) then Churn else NoChurn
  }

  /**
   * `result.probability || 0`. Replacing a falsy 0 by 0 changes nothing, so
   * the outcome is the reported probability whenever there is one.
   */
  function DecodeProbability(body: ResponseBody): (p: real)
    ensures body.probability.Some? ==> p == body.probability.value
    ensures body.probability.None? ==> p == 0.0
  {
    match body.probability
    case Some(v) => if v != 0.0 then v else 0.0
    case None => 0.0
  }

  // ---------------------------------------------------------------------
  // Indicators
  // ---------------------------------------------------------------------

  /** The prediction badge; `Blank` is the badge before the handler first writes it. */
  datatype Badge = Blank | Verdict(verdict: Label) | ConnectionError
  {
    function Text(): string
    {
      match this
      case Blank => ""
      case Verdict(Churn) => "\U{26A0}\U{FE0F} Churn"
      case Verdict(NoChurn) => "\U{2705} No Churn"
      case ConnectionError => "\U{274C} Connection Error"
    }

    /** The class that follows `prediction-badge`. */
    function Severity(): string
    {
      match this
      case Blank => ""
      case Verdict(Churn) => "churn"
      case Verdict(NoChurn) => "no-churn"
      case ConnectionError => "churn"
    }
  }

  /** The doughnut's data: churn risk and retention likelihood, in percent. */
  function DoughnutSeries(probability: real): (series: seq<real>)
    ensures |series| == 2
    ensures series[0] == probability * 100.0
    ensures series[0] + series[1] == 100.0
    ensures 0.0 <= probability <= 1.0 ==> 0.0 <= series[0] <= 100.0 && 0.0 <= series[1] <= 100.0
  {
    [probability * 100.0, (1.0 - probability) * 100.0]
  }

  /** A chart instance; `id` counts the instances created in the slot before it. */
  datatype Chart = Chart(id: nat, series: seq<real>)

  /**
   * The `predictionChart` slot: the live instance, if any, the instances
   * destroyed so far in the order they were destroyed, and how many were
   * created.
   */
  datatype ChartSlot = ChartSlot(live: Option<Chart>, destroyed: seq<nat>, created: nat)

  /**
   * No instance leaks: every instance created, except the live one, has been
   * destroyed, in creation order, and the live one is the latest created.
   */
  predicate NoLeak(slot: ChartSlot)
  {
    && |slot.destroyed| + (if slot.live.Some? then 1 else 0) == slot.created
    && (forall k :: 0 <= k < |slot.destroyed| ==> slot.destroyed[k] == k)
    && (slot.live.Some? ==> slot.live.value.id == slot.created - 1)
  }

  /** `updatePredictionChart`: destroy the live instance, if any, then create one for `series`. */
  function ReplaceChart(slot: ChartSlot, series: seq<real>): (next: ChartSlot)
    ensures next.live == Some(Chart(slot.created, series))
    ensures next.created == slot.created + 1
    ensures slot.live.Some? ==> slot.live.value.id in next.destroyed
    ensures forall id :: id in slot.destroyed ==> id in next.destroyed
    ensures NoLeak(slot) ==> NoLeak(next)
  {
    var destroyed := if slot.live.Some? then slot.destroyed + [slot.live.value.id] else slot.destroyed;
    ChartSlot(Some(Chart(slot.created, series)), destroyed, slot.created + 1)
  }

  // ---------------------------------------------------------------------
  // The observable state and its transitions
  // ---------------------------------------------------------------------

  datatype PageState = PageState(
    resultVisible: bool,
    badge: Badge,
    barVisible: bool,
    barPercent: real,
    riskFactors: seq<RiskFactor>,
    recommendations: seq<Recommendation>,
    chart: ChartSlot,
    predictionsToday: int)

  /** The success path of the submit handler for a parsed response body. */
  function Succeed(v: PageState, d: CustomerData, body: ResponseBody): (w: PageState)
    ensures w.resultVisible && w.barVisible
    ensures w.badge == Verdict(DecodeLabel(body))
    ensures w.badge.Severity() == (if body.prediction == Some(1.0) then "churn" else "no-churn")
    ensures w.barPercent == DecodeProbability(body) * 100.0
    ensures w.riskFactors == RiskFactors(d, DecodeProbability(body))
    ensures w.recommendations == Recommendations(DecodeLabel(body), d)
    ensures w.chart == ReplaceChart(v.chart, DoughnutSeries(DecodeProbability(body)))
    ensures w.chart.live.Some? && w.chart.live.value.series == DoughnutSeries(DecodeProbability(body))
    ensures v.chart.live.Some? ==> v.chart.live.value.id in w.chart.destroyed
    ensures NoLeak(v.chart) ==> NoLeak(w.chart)
    ensures w.predictionsToday == v.predictionsToday + 1
  {
    var verdict := DecodeLabel(body);
    var probability := DecodeProbability(body);
    PageState(
      true, Verdict(verdict), true, probability * 100.0,
      RiskFactors(d, probability), Recommendations(verdict, d),
      ReplaceChart(v.chart, DoughnutSeries(probability)),
      v.predictionsToday + 1)
  }

  /** The failure path: an error badge, the bar hidden, everything else as it was. */
  function Fail(v: PageState): (w: PageState)
    ensures w.resultVisible && !w.barVisible
    ensures w.badge == ConnectionError && w.badge.Severity() == "churn"
    ensures w.riskFactors == v.riskFactors && w.recommendations == v.recommendations
    ensures w.barPercent == v.barPercent && w.chart == v.chart
    ensures w.predictionsToday == v.predictionsToday
  {
    v.(resultVisible := true, badge := ConnectionError, barVisible := false)
  }

  /** One form submission: the customer data it sent and the reply it got. */
  datatype Submission = Submission(data: CustomerData, reply: Reply)

  /** What handling one submission does to the state. */
  function Step(v: PageState, s: Submission): PageState
  {
    if Succeeds(s.reply) then Succeed(v, s.data, s.reply.body.value) else Fail(v)
  }

  /** Submissions handled one after another, each in full before the next. */
  function Run(v: PageState, subs: seq<Submission>): PageState
    decreases |subs|
  {
    if subs == [] then v else Run(Step(v, subs[0]), subs[1..])
  }

  /** How many of the submissions take the success path. */
  function SuccessCount(subs: seq<Submission>): nat
  {
    if subs == [] then 0
    else (if Succeeds(subs[0].reply) then 1 else 0) + SuccessCount(subs[1..])
  }

  /** The counter rises by the number of successful submissions, failures adding nothing. */
  lemma {:induction false} CounterCountsSuccesses(v: PageState, subs: seq<Submission>)
    ensures Run(v, subs).predictionsToday == v.predictionsToday + SuccessCount(subs)
    decreases |subs|
  {
    if subs != [] {
      CounterCountsSuccesses(Step(v, subs[0]), subs[1..]);
    }
  }

  /** However many submissions are handled, the chart slot never leaks an instance. */
  lemma {:induction false} RunKeepsNoLeak(v: PageState, subs: seq<Submission>)
    requires NoLeak(v.chart)
    ensures NoLeak(Run(v, subs).chart)
    decreases |subs|
  {
    if subs != [] {
      RunKeepsNoLeak(Step(v, subs[0]), subs[1..]);
    }
  }

  /** Handling one more submission after a run is one more step. */
  lemma {:induction false} RunAppend(v: PageState, subs: seq<Submission>, s: Submission)
    ensures Run(v, subs + [s]) == Step(Run(v, subs), s)
    decreases |subs|
  {
    if subs != [] {
      assert (subs + [s])[1..] == subs[1..] + [s];
      RunAppend(Step(v, subs[0]), subs[1..], s);
    }
  }

  /**
   * The lists are replaced, never appended to: after a successful submission
   * they depend on that submission alone, whatever came before.
   */
  lemma LastSuccessReplacesLists(v: PageState, subs: seq<Submission>, s: Submission)
    requires Succeeds(s.reply)
    ensures Run(v, subs + [s]).riskFactors == RiskFactors(s.data, DecodeProbability(s.reply.body.value))
    ensures Run(v, subs + [s]).recommendations == Recommendations(DecodeLabel(s.reply.body.value), s.data)
    ensures Run(v, subs + [s]).badge == Verdict(DecodeLabel(s.reply.body.value))
  {
    RunAppend(v, subs, s);
  }

  /** Submissions that all fail leave the lists, the chart and the counter where they were. */
  lemma {:induction false} FailuresKeepResults(v: PageState, subs: seq<Submission>)
    requires forall i :: 0 <= i < |subs| ==> !Succeeds(subs[i].reply)
    ensures Run(v, subs).riskFactors == v.riskFactors
    ensures Run(v, subs).recommendations == v.recommendations
    ensures Run(v, subs).chart == v.chart
    ensures Run(v, subs).predictionsToday == v.predictionsToday
    decreases |subs|
  {
    if subs != [] {
      assert !Succeeds(subs[0].reply);
      FailuresKeepResults(Fail(v), subs[1..]);
    }
  }

  /** A churn answer for a short-tenure, high-charge, month-to-month customer. */
  lemma ChurnScenario(v: PageState)
    ensures var w := Succeed(v, CustomerData(3, 85.0, 0), ResponseBody(Some(1.0), Some(0.82)));
      && w.badge == Verdict(Churn) && w.badge.Severity() == "churn"
      && w.barVisible && w.barPercent == 82.0
      && w.riskFactors == [ContractRisk, HighCharges(85.0), ShortTenure(3), CriticalRisk]
      && w.recommendations == [RetentionCall, DiscountOffer, CustomPricing, LoyaltyProgram]
      && w.riskFactors[0].FixedText() == Some("Month-to-month contract increases churn risk by 45%")
      && w.riskFactors[3].FixedText() == Some("Critical risk level - immediate action required")
      && w.riskFactors[0].Icon() == "fa-calendar-times"
      && w.recommendations[0].Text() == "Schedule immediate retention call with account manager"
      && w.recommendations[3].Icon() == "fa-star"
      && w.predictionsToday == v.predictionsToday + 1
  {
  }

  /** An answer without a probability shows 0% and a doughnut of [0, 100]. */
  lemma MissingProbabilityScenario(v: PageState, d: CustomerData)
    ensures var w := Succeed(v, d, ResponseBody(Some(0.0), None));
      && w.barPercent == 0.0
      && w.chart.live.value.series == [0.0, 100.0]
  {
  }

  /** A connection failure shows the error badge, hides the bar and leaves the counter. */
  lemma ConnectionFailureScenario(v: PageState, d: CustomerData)
    ensures var w := Step(v, Submission(d, NetworkFailure));
      && w.badge.Text() == "\U{274C} Connection Error"
      && !w.barVisible
      && w.predictionsToday == v.predictionsToday
  {
  }

  // ---------------------------------------------------------------------
  // The synthetic trend series (initializeTrendChart)
  // ---------------------------------------------------------------------

  /** One point per day: today and the 30 days before it. */
  const TrendDays: nat := 31

  /** The trend chart's data: each point's day (as days before today) and its two values. */
  datatype TrendSeries = TrendSeries(daysAgo: seq<int>, churn: seq<real>, retention: seq<real>)

  /** A value `Math.random()` can return. */
  predicate IsRandomDraw(x: real)
  {
    0.0 <= x < 1.0
  }

  /** In exact reals, every churn value lies in [12, 20) and every retention value in (80, 88]. */
  predicate TrendInBands(t: TrendSeries)
  {
    && (forall k :: 0 <= k < |t.churn| ==> 12.0 <= t.churn[k] < 20.0)
    && (forall k :: 0 <= k < |t.retention| ==> 80.0 < t.retention[k] <= 88.0)
  }

  /**
   * The loop of `initializeTrendChart`, counting down from 30 days ago to
   * today. `draws` are the values `Math.random()` returns, in call order: the
   * churn value's draw, then the retention value's, for each day in turn.
   */
  method InitializeTrendChart(draws: seq<real>) returns (trend: TrendSeries)
    requires |draws| == 2 * TrendDays
    requires forall k :: 0 <= k < |draws| ==> IsRandomDraw(draws[k])
    ensures |trend.daysAgo| == |trend.churn| == |trend.retention| == TrendDays
    ensures forall k :: 0 <= k < TrendDays ==> trend.daysAgo[k] == TrendDays - 1 - k
    ensures forall k :: 0 <= k < TrendDays ==> trend.churn[k] == 12.0 + draws[2 * k] * 8.0
    ensures forall k :: 0 <= k < TrendDays ==> trend.retention[k] == 88.0 - draws[2 * k + 1] * 8.0
    ensures TrendInBands(trend)
  {
    var labels: seq<int> := [];
    var churnData: seq<real> := [];
    var retentionData: seq<real> := [];
    var i := 30;
    while i >= 0
      invariant -1 <= i <= 30
      invariant |labels| == |churnData| == |retentionData| == 30 - i
      invariant forall k :: 0 <= k < |labels| ==> labels[k] == 30 - k
      invariant forall k :: 0 <= k < |churnData| ==> churnData[k] == 12.0 + draws[2 * k] * 8.0
      invariant forall k :: 0 <= k < |retentionData| ==> retentionData[k] == 88.0 - draws[2 * k + 1] * 8.0
      invariant TrendInBands(TrendSeries(labels, churnData, retentionData))
    {
      var n := 30 - i;
      labels := labels + [i];
      churnData := churnData + [12.0 + draws[2 * n] * 8.0];
      retentionData := retentionData + [88.0 - draws[2 * n + 1] * 8.0];
      i := i - 1;
    }
    trend := TrendSeries(labels, churnData, retentionData);
  }

  // ---------------------------------------------------------------------
  // The page's state, updated in place
  // ---------------------------------------------------------------------

  class Dashboard {
    var resultVisible: bool
    var badge: Badge
    var barVisible: bool
    var barPercent: real
    var riskFactors: seq<RiskFactor>
    var recommendations: seq<Recommendation>
    var predictionChart: Option<Chart>
    var destroyedCharts: seq<nat>
    var chartsCreated: nat
    var predictionsToday: int
    /** Built once at start-up; no prediction touches it. */
    const trend: TrendSeries

    /** The `predictionChart` slot as a value. */
    function Slot(): ChartSlot
      reads this
    {
      ChartSlot(predictionChart, destroyedCharts, chartsCreated)
    }

    /** The observable state as a value. */
    function State(): PageState
      reads this
    {
      PageState(resultVisible, badge, barVisible, barPercent, riskFactors, recommendations,
           Slot(), predictionsToday)
    }

    ghost predicate Valid()
      reads this
    {
      && NoLeak(Slot())
      && |trend.daysAgo| == |trend.churn| == |trend.retention| == TrendDays
      && TrendInBands(trend)
    }

    /**
     * The page after `DOMContentLoaded`: result panel and bar hidden, no
     * chart yet, the counter showing `shownCount`, the trend series built.
     */
    constructor (shownCount: int, draws: seq<real>)
      requires |draws| == 2 * TrendDays
      requires forall k :: 0 <= k < |draws| ==> IsRandomDraw(draws[k])
      ensures Valid()
      ensures State() == PageState(false, Blank, false, 0.0, [], [], ChartSlot(None, [], 0), shownCount)
    {
      var t := InitializeTrendChart(draws);
      resultVisible := false;
      badge := Blank;
      barVisible := false;
      barPercent := 0.0;
      riskFactors := [];
      recommendations := [];
      predictionChart := None;
      destroyedCharts := [];
      chartsCreated := 0;
      predictionsToday := shownCount;
      trend := t;
    }

    /** `displayRiskFactors`: collect the firing factors, then replace the list. */
    method DisplayRiskFactors(d: CustomerData, probability: real)
      modifies this`riskFactors
      ensures riskFactors == RiskFactors(d, probability)
    {
      var factors: seq<RiskFactor> := [];
      if d.contract == 0 {
        factors := factors + [ContractRisk];
      }
      if d.monthlyCharges > HighChargesCutoff {
        factors := factors + [HighCharges(d.monthlyCharges)];
      }
      if d.tenure < ShortTenureCutoff {
        factors := factors + [ShortTenure(d.tenure)];
      }
      if probability > CriticalProbability {
        factors := factors + [CriticalRisk];
      }
      riskFactors := factors;
    }

    /** `displayRecommendations`: collect the entries for the label, then replace the list. */
    method DisplayRecommendations(verdict: Label, d: CustomerData)
      modifies this`recommendations
      ensures recommendations == Recommendations(verdict, d)
    {
      var recs: seq<Recommendation> := [];
      if verdict == Churn {
        recs := recs + [RetentionCall];
        if d.contract == 0 {
          recs := recs + [DiscountOffer];
        }
        if d.monthlyCharges > HighChargesCutoff {
          recs := recs + [CustomPricing];
        }
        recs := recs + [LoyaltyProgram];
      } else {
        recs := recs + [HealthyStatus];
        recs := recs + [ContinueMonitoring];
        if d.contract != 2 {
          recs := recs + [UpsellContract];
        }
      }
      recommendations := recs;
    }

    /** `updatePredictionChart`: destroy the previous instance, then create the new doughnut. */
    method UpdatePredictionChart(probability: real)
      modifies this`predictionChart, this`destroyedCharts, this`chartsCreated
      ensures Slot() == ReplaceChart(old(Slot()), DoughnutSeries(probability))
    {
      if predictionChart.Some? {
        destroyedCharts := destroyedCharts + [predictionChart.value.id];
      }
      predictionChart := Some(Chart(chartsCreated, [probability * 100.0, (1.0 - probability) * 100.0]));
      chartsCreated := chartsCreated + 1;
    }

    /** `updateKPIs`: read the counter, write it back one higher. */
    method UpdateKPIs()
      modifies this`predictionsToday
      ensures predictionsToday == old(predictionsToday) + 1
    {
      var currentValue := predictionsToday;
      predictionsToday := currentValue + 1;
    }

    /** The success path of the submit handler. */
    method OnSuccess(d: CustomerData, body: ResponseBody)
      requires Valid()
      modifies this
      ensures Valid()
      ensures State() == Succeed(old(State()), d, body)
    {
      var verdict := DecodeLabel(body);
      var probability := DecodeProbability(body);
      badge := Verdict(verdict);
      resultVisible := true;
      barVisible := true;
      barPercent := probability * 100.0;
      DisplayRiskFactors(d, probability);
      DisplayRecommendations(verdict, d);
      UpdatePredictionChart(probability);
      UpdateKPIs();
    }

    /** The failure path of the submit handler (the `catch` block). */
    method OnFailure()
      requires Valid()
      modifies this
      ensures Valid()
      ensures State() == Fail(old(State()))
    {
      badge := ConnectionError;
      resultVisible := true;
      barVisible := false;
    }

    /** The submit handler: build the data, send it, and take the path the reply decides. */
    method Submit(form: FormInput, reply: Reply)
      requires Valid()
      requires BuildData(form).Some?
      modifies this
      ensures Valid()
      ensures State() == Step(old(State()), Submission(BuildData(form).value, reply))
    {
      var d := BuildData(form).value;
      if reply.HttpReply? && StatusOk(reply.status) && reply.body.Some? {
        OnSuccess(d, reply.body.value);
      } else {
        OnFailure();
      }
    }
  }
}
