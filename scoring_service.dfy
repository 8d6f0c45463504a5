/**
 * The scoring service (backend/main.py): `predict` reads tenure, monthly
 * charges and the contract code from a feature list, adds up three rule
 * weights and a random term, clamps the score to [0, 1] and labels it churn
 * above 0.6. The random term is a parameter here, bounded as
 * `random.uniform(-0.1, 0.1)` bounds it, and arithmetic is on exact reals.
 */
module ScoringService {

  /** The request body: a list of numbers, read by position. */
  datatype PredictionRequest = PredictionRequest(features: seq<real>)

  /** The JSON object `predict` returns: the keys `prediction` and `probability`, nothing else. */
  datatype PredictionResponse = PredictionResponse(prediction: int, probability: real)

  /** A call to `predict` either answers, or raises IndexError on a feature list shorter than 3. */
  datatype Outcome = Ok(response: PredictionResponse) | IndexError

  const ContractWeight: real := 0.5
  const ChargesWeight: real := 0.3
  const TenureWeight: real := 0.3
  const ChargesCutoff: real := 50.0
  const TenureCutoff: real := 12.0
  const NoiseBound: real := 0.1
  const ChurnThreshold: real := 0.6

  /** The range of the random term the score receives. */
  predicate ValidNoise(noise: real)
  {
    -NoiseBound <= noise <= NoiseBound
  }

  function Weight(fires: bool, w: real): real
  {
    if fires then w else 0.0
  }

  /** The rule score before the random term: every rule that fires adds its weight. */
  function RuleScore(tenure: real, charges: real, contract: real): (s: real)
    ensures 0.0 <= s <= ContractWeight + ChargesWeight + TenureWeight
    ensures s == 0.0 <==> contract != 0.0 && charges <= ChargesCutoff && tenure >= TenureCutoff
  {
    Weight(contract == 0.0, ContractWeight)
    + Weight(charges > ChargesCutoff, ChargesWeight)
    + Weight(tenure < TenureCutoff, TenureWeight)
  }

  function Min(x: real, y: real): real { if x <= y then x else y }

  function Max(x: real, y: real): real { if x >= y then x else y }

  /** `max(0.0, min(1.0, x))`: the nearest point of [0, 1] to `x`. */
  function Clamp(x: real): (r: real)
    ensures 0.0 <= r <= 1.0
    ensures 0.0 <= x <= 1.0 ==> r == x
    ensures x < 0.0 ==> r == 0.0
    ensures x > 1.0 ==> r == 1.0
  {
    Max(0.0, Min(1.0, x))
  }

  /** The probability `predict` reports for the given features and random term. */
  function Probability(tenure: real, charges: real, contract: real, noise: real): (p: real)
    ensures 0.0 <= p <= 1.0
    ensures ValidNoise(noise) ==>
              Clamp(RuleScore(tenure, charges, contract) - NoiseBound) <= p
              <= Clamp(RuleScore(tenure, charges, contract) + NoiseBound)
  {
    Clamp(RuleScore(tenure, charges, contract) + noise)
  }

  /** `1 if probability > 0.6 else 0`. */
  function Prediction(probability: real): (y: int)
    ensures y == 0 || y == 1
    ensures y == 1 <==> probability > ChurnThreshold
  {
    if probability > ChurnThreshold then 1 else 0
  }

  /** What `predict` returns for a request, given the random term it draws. */
  function Respond(request: PredictionRequest, noise: real): (out: Outcome)
    ensures out.IndexError? <==> |request.features| < 3
    ensures out.Ok? ==> 0.0 <= out.response.probability <= 1.0
    ensures out.Ok? ==> (out.response.prediction == 1 <==> out.response.probability > ChurnThreshold)
    ensures out.Ok? ==> out.response.prediction == 0 || out.response.prediction == 1
  {
    var f := request.features;
    if |f| < 3 then IndexError
    else
      var p := Probability(f[0], f[1], f[2], noise);
      Ok(PredictionResponse(Prediction(p), p))
  }

  /** The handler itself: an accumulator updated rule by rule, then clamped and thresholded. */
  method Predict(request: PredictionRequest, noise: real) returns (out: Outcome)
    requires ValidNoise(noise)
    ensures out == Respond(request, noise)
  {
    if |request.features| < 3 {
      // indexing a missing position raises IndexError
      return IndexError;
    }
    var tenure := request.features[0];
    var monthlyCharges := request.features[1];
    var contract := request.features[2];

    var score: real := 0.0;
    if contract == 0.0 {
      score := score + ContractWeight;
    }
    if monthlyCharges > ChargesCutoff {
      score := score + ChargesWeight;
    }
    if tenure < TenureCutoff {
      score := score + TenureWeight;
    }
    score := score + noise;

    var probability := Max(0.0, Min(1.0, score));
    var prediction := if probability > ChurnThreshold then 1 else 0;
    out := Ok(PredictionResponse(prediction, probability));
  }

  /** No rule fires: the score is the random term alone, so no churn. */
  lemma NoRuleFires(tenure: real, charges: real, contract: real, noise: real)
    requires ValidNoise(noise)
    requires contract != 0.0 && charges <= ChargesCutoff && tenure >= TenureCutoff
    ensures Probability(tenure, charges, contract, noise) <= NoiseBound
    ensures Prediction(Probability(tenure, charges, contract, noise)) == 0
  {
  }

  /** All three rules fire: the score is at least 1.0, so it clamps to certainty. */
  lemma AllRulesFire(tenure: real, charges: real, contract: real, noise: real)
    requires ValidNoise(noise)
    requires contract == 0.0 && charges > ChargesCutoff && tenure < TenureCutoff
    ensures Probability(tenure, charges, contract, noise) == 1.0
    ensures Prediction(Probability(tenure, charges, contract, noise)) == 1
  {
  }

  /** A month-to-month contract alone reaches at most 0.6, which is not above the threshold. */
  lemma MonthToMonthAlone(tenure: real, charges: real, noise: real)
    requires ValidNoise(noise)
    requires charges <= ChargesCutoff && tenure >= TenureCutoff
    ensures 0.4 <= Probability(tenure, charges, 0.0, noise) <= ChurnThreshold
    ensures Prediction(Probability(tenure, charges, 0.0, noise)) == 0
  {
  }

  /** No single rule can produce a churn label: churn needs two rules to fire. */
  lemma ChurnNeedsTwoRules(tenure: real, charges: real, contract: real, noise: real)
    requires ValidNoise(noise)
    requires Prediction(Probability(tenure, charges, contract, noise)) == 1
    ensures (contract == 0.0 && charges > ChargesCutoff)
            || (contract == 0.0 && tenure < TenureCutoff)
            || (charges > ChargesCutoff && tenure < TenureCutoff)
  {
  }

  /** A month-to-month contract with one more rule always gives churn, whatever the random term. */
  lemma MonthToMonthPlusOneRule(tenure: real, charges: real, noise: real)
    requires ValidNoise(noise)
    requires charges > ChargesCutoff || tenure < TenureCutoff
    ensures Probability(tenure, charges, 0.0, noise) >= 0.7
    ensures Prediction(Probability(tenure, charges, 0.0, noise)) == 1
  {
  }
}
