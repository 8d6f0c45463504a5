/**
 * The client's deterministic rules (frontend/script.js): the contract lookup
 * and feature payload of the submit handler, and the two rule engines behind
 * `displayRiskFactors` and `displayRecommendations`. Each engine's list is
 * specified here by the entries it must hold and the order they come in.
 */
module ChurnRules {
  import opened Optional
  import opened Ranking

  /** The form fields as the handler parses them: an integer, a number and the contract label. */
  datatype FormInput = FormInput(tenure: int, monthlyCharges: real, contract: string)

  /** The handler's `data` record: the contract label replaced by its code. */
  datatype CustomerData = CustomerData(tenure: int, monthlyCharges: real, contract: int)

  /** The handler's `contractMap`. */
  const ContractMap: map<string, int> :=
    map["Month-to-month" := 0, "One year" := 1, "Two year" := 2]

  /** Looks a contract label up in `contractMap`; a label it lacks has no code. */
  function ContractCode(name: string): (code: Option<int>)
    ensures code == Some(0) <==> name == "Month-to-month"
    ensures code == Some(1) <==> name == "One year"
    ensures code == Some(2) <==> name == "Two year"
    ensures code.Some? ==> 0 <= code.value <= 2
  {
    if name in ContractMap then Some(ContractMap[name]) else None
  }

  /** Different labels never share a code. */
  lemma ContractCodesDistinct(a: string, b: string)
    requires ContractCode(a).Some? && ContractCode(a) == ContractCode(b)
    ensures a == b
  {
  }

  /** The handler's `data` record, for a form whose contract label the map knows. */
  function BuildData(form: FormInput): (d: Option<CustomerData>)
    ensures d.Some? <==> ContractCode(form.contract).Some?
    ensures d.Some? ==> d.value.tenure == form.tenure && d.value.monthlyCharges == form.monthlyCharges
    ensures d.Some? ==> Some(d.value.contract) == ContractCode(form.contract)
  {
    match ContractCode(form.contract)
    case Some(code) => Some(CustomerData(form.tenure, form.monthlyCharges, code))
    case None => None
  }

  /** The `features` array of the request body, in wire order. */
  function Payload(d: CustomerData): (features: seq<real>)
    ensures |features| == 3
    ensures features[0] == d.tenure as real
    ensures features[1] == d.monthlyCharges
    ensures features[2] == d.contract as real
  {
    [d.tenure as real, d.monthlyCharges, d.contract as real]
  }

  /** A payload built from a form always carries a contract code among 0, 1 and 2. */
  lemma PayloadContractInRange(form: FormInput)
    requires BuildData(form).Some?
    ensures |Payload(BuildData(form).value)| == 3
    ensures Payload(BuildData(form).value)[2] in {0.0, 1.0, 2.0}
  {
  }

  // ---------------------------------------------------------------------
  // Risk factors (displayRiskFactors)
  // ---------------------------------------------------------------------

  const HighChargesCutoff: real := 70.0
  const ShortTenureCutoff: int := 12
  const CriticalProbability: real := 0.7

  /** One risk factor; the charges and tenure factors quote the customer's own value. */
  datatype RiskFactor = ContractRisk | HighCharges(charges: real) | ShortTenure(months: int) | CriticalRisk
  {
    /** The icon the list item shows. */
    function Icon(): string
    {
      match this
      case ContractRisk => "fa-calendar-times"
      case HighCharges(_) => "fa-dollar-sign"
      case ShortTenure(_) => "fa-clock"
      case CriticalRisk => "fa-exclamation-circle"
    }

    /** The item's text where it is fixed; the charges and tenure texts quote a number. */
    function FixedText(): Option<string>
    {
      match this
      case ContractRisk => Some("Month-to-month contract increases churn risk by 45%")
      case HighCharges(_) => None
      case ShortTenure(_) => None
      case CriticalRisk => Some("Critical risk level - immediate action required")
    }
  }

  /** The position of each factor's check in `displayRiskFactors`. */
  function RiskRank(f: RiskFactor): nat
  {
    match f
    case ContractRisk => 0
    case HighCharges(_) => 1
    case ShortTenure(_) => 2
    case CriticalRisk => 3
  }

  /** Whether the check that emits `f` fires for this customer and probability. */
  predicate Fires(f: RiskFactor, d: CustomerData, probability: real)
  {
    match f
    case ContractRisk => d.contract == 0
    case HighCharges(c) => c == d.monthlyCharges && c > HighChargesCutoff
    case ShortTenure(t) => t == d.tenure && t < ShortTenureCutoff
    case CriticalRisk => probability > CriticalProbability
  }

  /** The factors `displayRiskFactors` lists: exactly those whose check fires, in check order. */
  function RiskFactors(d: CustomerData, probability: real): (factors: seq<RiskFactor>)
    ensures forall f :: f in factors <==> Fires(f, d, probability)
    ensures StrictlyRanked(factors, RiskRank)
  {
    (if d.contract == 0 then [ContractRisk] else [])
    + (if d.monthlyCharges > HighChargesCutoff then [HighCharges(d.monthlyCharges)] else [])
    + (if d.tenure < ShortTenureCutoff then [ShortTenure(d.tenure)] else [])
    + (if probability > CriticalProbability then [CriticalRisk] else [])
  }

  /** At most the four factors, whatever the input. */
  lemma RiskFactorsAtMostFour(d: CustomerData, probability: real)
    ensures |RiskFactors(d, probability)| <= 4
  {
    RankedLengthBound(RiskFactors(d, probability), RiskRank, 4);
  }

  /**
   * The two contract clauses of `RiskFactors` pin the list down: any list that
   * holds exactly the firing factors, in check order, is that list.
   */
  lemma RiskFactorsDetermined(d: CustomerData, probability: real, s: seq<RiskFactor>)
    requires forall f :: f in s <==> Fires(f, d, probability)
    requires StrictlyRanked(s, RiskRank)
    ensures s == RiskFactors(d, probability)
  {
    RankedUnique(s, RiskFactors(d, probability), RiskRank);
  }

  // ---------------------------------------------------------------------
  // Recommendations (displayRecommendations)
  // ---------------------------------------------------------------------

  /** The label the handler derives from the service's answer. */
  datatype Label = Churn | NoChurn

  /** One recommended action, in the order `displayRecommendations` may emit them. */
  datatype Recommendation =
    | RetentionCall | DiscountOffer | CustomPricing | LoyaltyProgram
    | HealthyStatus | ContinueMonitoring | UpsellContract
  {
    function Icon(): string
    {
      match this
      case RetentionCall => "fa-phone"
      case DiscountOffer => "fa-gift"
      case CustomPricing => "fa-tags"
      case LoyaltyProgram => "fa-star"
      case HealthyStatus => "fa-check-circle"
      case ContinueMonitoring => "fa-chart-line"
      case UpsellContract => "fa-arrow-up"
    }

    function Text(): string
    {
      match this
      case RetentionCall => "Schedule immediate retention call with account manager"
      case DiscountOffer => "Offer 15% discount for annual contract upgrade"
      case CustomPricing => "Present customized pricing plan to reduce monthly cost"
      case LoyaltyProgram => "Enroll in VIP loyalty program with exclusive benefits"
      case HealthyStatus => "Customer retention status: Healthy"
      case ContinueMonitoring => "Continue monitoring engagement metrics monthly"
      case UpsellContract => "Opportunity: Upsell to longer contract term"
    }
  }

  /** The position of each entry's push in `displayRecommendations`. */
  function RecommendationRank(r: Recommendation): nat
  {
    match r
    case RetentionCall => 0
    case DiscountOffer => 1
    case CustomPricing => 2
    case LoyaltyProgram => 3
    case HealthyStatus => 4
    case ContinueMonitoring => 5
    case UpsellContract => 6
  }

  /** Whether `displayRecommendations` pushes `r` for this verdict and customer. */
  predicate Recommended(r: Recommendation, verdict: Label, d: CustomerData)
  {
    match r
    case RetentionCall => verdict == Churn
    case DiscountOffer => verdict == Churn && d.contract == 0
    case CustomPricing => verdict == Churn && d.monthlyCharges > HighChargesCutoff
    case LoyaltyProgram => verdict == Churn
    case HealthyStatus => verdict == NoChurn
    case ContinueMonitoring => verdict == NoChurn
    case UpsellContract => verdict == NoChurn && d.contract != 2
  }

  /** The entries `displayRecommendations` lists: exactly the recommended ones, in push order. */
  function Recommendations(verdict: Label, d: CustomerData): (recs: seq<Recommendation>)
    ensures forall r :: r in recs <==> Recommended(r, verdict, d)
    ensures StrictlyRanked(recs, RecommendationRank)
  {
    if verdict == Churn then
      [RetentionCall]
      + (if d.contract == 0 then [DiscountOffer] else [])
      + (if d.monthlyCharges > HighChargesCutoff then [CustomPricing] else [])
      + [LoyaltyProgram]
    else
      [HealthyStatus, ContinueMonitoring]
      + (if d.contract != 2 then [UpsellContract] else [])
  }

  /** Any list with exactly the recommended entries, in push order, is `Recommendations`. */
  lemma RecommendationsDetermined(verdict: Label, d: CustomerData, s: seq<Recommendation>)
    requires forall r :: r in s <==> Recommended(r, verdict, d)
    requires StrictlyRanked(s, RecommendationRank)
    ensures s == Recommendations(verdict, d)
  {
    RankedUnique(s, Recommendations(verdict, d), RecommendationRank);
  }

  /**
   * For a churn verdict the list opens with the retention call and closes with
   * the loyalty program, and holds two to four entries.
   */
  lemma ChurnRecommendationsShape(d: CustomerData)
    ensures var recs := Recommendations(Churn, d);
      && 2 <= |recs| <= 4
      && recs[0] == RetentionCall
      && recs[|recs| - 1] == LoyaltyProgram
      && (DiscountOffer in recs <==> d.contract == 0)
      && (CustomPricing in recs <==> d.monthlyCharges > HighChargesCutoff)
  {
    var recs := Recommendations(Churn, d);
    forall r | r in recs
      ensures RecommendationRank(r) < 4
    {
    }
    RankedLengthBound(recs, RecommendationRank, 4);
    assert RetentionCall in recs && LoyaltyProgram in recs;
  }

  /**
   * For a no-churn verdict the list opens with the healthy-status and monitoring
   * entries; the upsell follows iff the contract is not already two years.
   */
  lemma NoChurnRecommendationsShape(d: CustomerData)
    ensures var recs := Recommendations(NoChurn, d);
      && |recs| == (if d.contract != 2 then 3 else 2)
      && recs[0] == HealthyStatus
      && recs[1] == ContinueMonitoring
      && (UpsellContract in recs <==> d.contract != 2)
  {
  }
}
