/**
 * The two sides of the one HTTP call, put together: the feature list the
 * client sends (frontend/script.js) is the one the service reads
 * (backend/main.py), and the service's answer reaches the dashboard unchanged.
 */
module Pipeline {
  import opened Optional
  import opened ChurnRules
  import opened ScoringService
  import opened DashboardUi

  /** The service's JSON answer as the client parses it: both fields present, as numbers. */
  function ToBody(r: PredictionResponse): ResponseBody
  {
    ResponseBody(Some(r.prediction as real), Some(r.probability))
  }

  /** The reply a running service sends for this customer and random term. */
  function ServiceReply(d: CustomerData, noise: real): Reply
  {
    match Respond(PredictionRequest(Payload(d)), noise)
    case Ok(r) => HttpReply(200, Some(ToBody(r)))
    case IndexError => HttpReply(500, None)
  }

  /** The service reads tenure, charges and contract back from the positions the client wrote them to. */
  lemma PayloadReadBack(d: CustomerData, noise: real)
    ensures var p := Probability(d.tenure as real, d.monthlyCharges, d.contract as real, noise);
      Respond(PredictionRequest(Payload(d)), noise) == Ok(PredictionResponse(Prediction(p), p))
  {
  }

  /** The client decodes the service's label and probability without change. */
  lemma DecodeServiceResponse(r: PredictionResponse)
    requires r.prediction == 0 || r.prediction == 1
    ensures DecodeLabel(ToBody(r)) == (if r.prediction == 1 then Churn else NoChurn)
    ensures DecodeProbability(ToBody(r)) == r.probability
  {
  }

  /**
   * End to end, a submission the service answers always takes the success
   * path; the badge reads churn exactly when the service's probability is
   * above 0.6, and the bar shows that probability, within 0% to 100%.
   */
  lemma ServiceAnswerShown(v: PageState, d: CustomerData, noise: real)
    ensures var p := Probability(d.tenure as real, d.monthlyCharges, d.contract as real, noise);
      var w := Step(v, Submission(d, ServiceReply(d, noise)));
      && Succeeds(ServiceReply(d, noise))
      && (w.badge == Verdict(Churn) <==> p > ChurnThreshold)
      && w.barPercent == p * 100.0
      && 0.0 <= w.barPercent <= 100.0
      && w.predictionsToday == v.predictionsToday + 1
  {
    PayloadReadBack(d, noise);
    var p := Probability(d.tenure as real, d.monthlyCharges, d.contract as real, noise);
    DecodeServiceResponse(PredictionResponse(Prediction(p), p));
  }

  /** Whenever the dashboard lists the critical-risk factor, its badge reads churn. */
  lemma CriticalRiskShownWithChurn(v: PageState, d: CustomerData, noise: real)
    ensures var w := Step(v, Submission(d, ServiceReply(d, noise)));
      CriticalRisk in w.riskFactors ==> w.badge == Verdict(Churn)
  {
    ServiceAnswerShown(v, d, noise);
  }

  /**
   * A month-to-month customer with charges above 70 and under a year of
   * tenure gets every risk factor and every churn recommendation, and a
   * doughnut that is all churn, whatever the random term.
   */
  lemma HighRiskCustomerEndToEnd(v: PageState, d: CustomerData, noise: real)
    requires ValidNoise(noise)
    requires d.contract == 0 && d.monthlyCharges > HighChargesCutoff && d.tenure < ShortTenureCutoff
    ensures var w := Step(v, Submission(d, ServiceReply(d, noise)));
      && w.badge == Verdict(Churn)
      && w.riskFactors == [ContractRisk, HighCharges(d.monthlyCharges), ShortTenure(d.tenure), CriticalRisk]
      && w.recommendations == [RetentionCall, DiscountOffer, CustomPricing, LoyaltyProgram]
      && w.chart.live.value.series == [100.0, 0.0]
  {
    AllRulesFire(d.tenure as real, d.monthlyCharges, d.contract as real, noise);
    ServiceAnswerShown(v, d, noise);
  }
}
