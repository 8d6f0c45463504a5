# Churn prediction dashboard — a Dafny model

This project models the deterministic logic on both sides of the one HTTP
call of a customer-churn demo:

- the **client** (`frontend/script.js`): the submit handler maps the contract
  label to a code and sends `features: [tenure, monthly_charges, contract]`.
  It decodes the answer into a label (`Churn` iff `prediction === 1`) and a
  probability (`probability || 0`). Then it takes one of two paths. The
  success path sets the badge, shows the probability bar, replaces the
  risk-factor and recommendation lists, destroys and rebuilds the doughnut
  chart, and adds one to the "predictions today" counter. The failure path
  shows a connection-error badge and hides the bar. Start-up builds a
  31-point synthetic trend series.
- the **scoring service** (`backend/main.py`): `predict` adds three rule
  weights and a random term, clamps the score to [0, 1] and labels it churn
  above 0.6.

Files:

- `optional.dfy`: the `Option` type for missing JSON fields and failed lookups.
- `ranking.dfy`: "strictly ranked" lists. The rule engines emit entries in a
  fixed check order. Lemmas show such a list is bounded by the number of
  ranks and determined by its entries.
- `scoring_service.dfy`: module `ScoringService`. `Predict` is the
  imperative handler with its `score` accumulator. It is proved equal to the
  declarative `Respond`, built from `RuleScore`, `Clamp`, `Probability` and
  `Prediction`. Lemmas cover the case properties of the score.
- `churn_rules.dfy`: module `ChurnRules`. It holds the contract map, the
  payload and both rule engines. Each engine is specified by which entries
  it holds (an independent predicate, `Fires` or `Recommended`) and by their
  order (a rank).
- `dashboard_ui.dfy`: module `DashboardUi`. It holds response decoding, the
  badge and the chart slot. It also holds the page state as a value
  (`PageState`) with its transitions `Succeed`, `Fail`, `Step` and `Run`,
  and the trend loop. The class `Dashboard` keeps the same state in fields.
  Its methods update those fields in place and are proved to perform the
  transitions.
- `pipeline.dfy`: module `Pipeline`. It has end-to-end lemmas linking the
  client payload to the service's reading of it, and the service's answer to
  what the dashboard shows.

Behaviour of the source the model keeps:

- An unknown contract label is not rejected. A label that is not one of the
  map's own keys gets no code from the lookup.
- The client never checks that the probability lies in [0, 1].
- A non-ok status, an unparsable body and a failed connection all take the
  same `catch` path.

## Model

| member | source | states |
|---|---|---|
| ScoringService.RuleScore | backend/main.py:40-46 | the rule score lies between 0 and 1.1, and is 0 exactly when no rule (month-to-month, charges > 50, tenure < 12) fires |
| ScoringService.Clamp | backend/main.py:52 | the result lies in [0, 1], equals the input inside [0, 1], and is 0 below and 1 above |
| ScoringService.Probability | backend/main.py:40-52 | the probability lies in [0, 1], and the random term moves it no further than clamping the rule score ± 0.1 allows |
| ScoringService.Prediction | backend/main.py:54 | the prediction is 0 or 1, and 1 iff the probability is above 0.6 |
| ScoringService.Respond | backend/main.py:28-56 | a list shorter than 3 raises IndexError and nothing else does; an answer has a probability in [0, 1] and prediction 1 iff probability > 0.6 |
| ScoringService.Predict | backend/main.py:28-56 | the handler's accumulate-clamp-threshold computation returns exactly `Respond` for every request and random term in [-0.1, 0.1] |
| ScoringService.NoRuleFires | backend/main.py:40-54 | with no rule firing the probability is at most 0.1 and the prediction 0 |
| ScoringService.AllRulesFire | backend/main.py:40-54 | with all three rules firing the probability is 1.0 and the prediction 1 |
| ScoringService.MonthToMonthAlone | backend/main.py:40-54 | a month-to-month contract alone gives a probability in [0.4, 0.6], so prediction 0 |
| ScoringService.ChurnNeedsTwoRules | backend/main.py:40-54 | a churn prediction implies that at least two of the three rules fired |
| ScoringService.MonthToMonthPlusOneRule | backend/main.py:40-54 | month-to-month plus high charges or short tenure gives probability ≥ 0.7 and prediction 1, whatever the random term |
| ChurnRules.ContractCode | frontend/script.js:37-46 | "Month-to-month", "One year" and "Two year" map to 0, 1 and 2 respectively, each iff that label is given; any code is in 0..2 |
| ChurnRules.ContractCodesDistinct | frontend/script.js:37-41 | two labels with the same code are the same label |
| ChurnRules.BuildData | frontend/script.js:43-47 | the data record exists iff the label is in the map, and carries the form's tenure, charges and the label's code |
| ChurnRules.Payload | frontend/script.js:58 | the features list has length 3: tenure, monthly charges, contract code, in that order |
| ChurnRules.PayloadContractInRange | frontend/script.js:37-58 | a payload built from a form has its third element in {0, 1, 2} |
| ChurnRules.RiskFactors | frontend/script.js:104-134 | a factor is listed iff its check fires (contract == 0, charges > 70, tenure < 12, probability > 0.7), and the list follows check order |
| ChurnRules.RiskFactorsAtMostFour | frontend/script.js:104-134 | the risk-factor list never holds more than four entries |
| ChurnRules.RiskFactorsDetermined | frontend/script.js:104-134 | any list holding exactly the firing factors in check order is the risk-factor list |
| ChurnRules.Recommendations | frontend/script.js:145-190 | an entry is listed iff its branch and condition hold (discount iff contract == 0, pricing iff charges > 70, upsell iff contract != 2), and in push order |
| ChurnRules.RecommendationsDetermined | frontend/script.js:145-190 | any list holding exactly the recommended entries in push order is the recommendation list |
| ChurnRules.ChurnRecommendationsShape | frontend/script.js:149-172 | for churn: first the retention call, last the loyalty program, 2 to 4 entries, discount iff month-to-month, pricing iff charges > 70 |
| ChurnRules.NoChurnRecommendationsShape | frontend/script.js:173-190 | for no churn: "Healthy" then "monitoring"; upsell iff the contract is not two years, so 3 or 2 entries |
| DashboardUi.DecodeLabel | frontend/script.js:66 | the label is Churn iff the response's prediction is exactly 1 |
| DashboardUi.DecodeProbability | frontend/script.js:67 | the probability is the reported one whenever reported (a falsy 0 stays 0) and 0 when missing |
| DashboardUi.DoughnutSeries | frontend/script.js:213 | the doughnut series has two values, the first p·100, summing to 100, both in [0, 100] when p is in [0, 1] |
| DashboardUi.ReplaceChart | frontend/script.js:204-213 | the previous live chart ends up destroyed, the new one is live with the given series, and a slot without leaked instances stays so |
| DashboardUi.Succeed | frontend/script.js:65-92 | result and bar shown; badge is the decoded label's (class "churn"/"no-churn"); bar = p·100; both lists replaced by the engines' lists; the chart slot is `ReplaceChart` of the old one, so the old live chart is destroyed and a new doughnut created; counter + 1 |
| DashboardUi.Fail | frontend/script.js:94-100 | connection-error badge with class "churn", result shown, bar hidden; lists, chart, bar value and counter unchanged |
| DashboardUi.CounterCountsSuccesses | frontend/script.js:373-377 | after any sequence of submissions the counter has risen by the number of successes only |
| DashboardUi.RunKeepsNoLeak | frontend/script.js:204-208 | over any sequence of submissions no chart instance is ever leaked |
| DashboardUi.RunAppend | frontend/script.js:33-101 | handling one more submission after a sequence is one more handler step |
| DashboardUi.LastSuccessReplacesLists | frontend/script.js:136-141 | after a successful submission the lists and badge depend on that submission alone, never on earlier ones |
| DashboardUi.FailuresKeepResults | frontend/script.js:94-100 | a run of failed submissions leaves the lists, the chart and the counter as they were |
| DashboardUi.ChurnScenario | frontend/script.js:65-92 | tenure 3, charges 85, month-to-month answered churn at 0.82 shows a churn badge, 82%, four factors, four recommendations (with their fixed texts and icons) and counter + 1 |
| DashboardUi.MissingProbabilityScenario | frontend/script.js:67 | an answer without probability shows 0% and a doughnut of [0, 100] |
| DashboardUi.ConnectionFailureScenario | frontend/script.js:94-100 | a failed connection shows the connection-error text, hides the bar and leaves the counter |
| DashboardUi.InitializeTrendChart | frontend/script.js:261-277 | 31 points, from 30 days ago to today; churn 12 + 8·draw and retention 88 − 8·draw, draws taken in call order; in exact reals the bands are [12, 20) and (80, 88] |
| DashboardUi.Dashboard.constructor | frontend/script.js:10-17 | start-up state: panels hidden, no chart, the shown counter, a trend series within its bands |
| DashboardUi.Dashboard.DisplayRiskFactors | frontend/script.js:104-142 | the pushes build exactly `RiskFactors`, which replaces the previous list |
| DashboardUi.Dashboard.DisplayRecommendations | frontend/script.js:145-198 | the pushes build exactly `Recommendations`, which replaces the previous list |
| DashboardUi.Dashboard.UpdatePredictionChart | frontend/script.js:201-213 | destroying then creating performs `ReplaceChart` with the doughnut series |
| DashboardUi.Dashboard.UpdateKPIs | frontend/script.js:373-377 | the counter becomes exactly one more than before |
| DashboardUi.Dashboard.OnSuccess | frontend/script.js:65-92 | the in-place updates produce `Succeed` of the previous state and keep the no-leak invariant |
| DashboardUi.Dashboard.OnFailure | frontend/script.js:94-100 | the in-place updates produce `Fail` of the previous state |
| DashboardUi.Dashboard.Submit | frontend/script.js:33-101 | the handler takes the success path iff the reply arrived with an ok status and a parsable body, and otherwise the failure path |
| Pipeline.PayloadReadBack | backend/main.py:34-36 | the service reads tenure, charges and contract from the positions the client wrote them to, and answers |
| Pipeline.DecodeServiceResponse | frontend/script.js:66-67 | the client decodes the service's label and probability unchanged |
| Pipeline.ServiceAnswerShown | frontend/script.js:52-92 | an answered submission takes the success path; the badge reads churn iff the service probability > 0.6; the bar shows it within 0–100% |
| Pipeline.CriticalRiskShownWithChurn | frontend/script.js:129-134 | whenever the critical-risk factor is listed, the badge reads churn |
| Pipeline.HighRiskCustomerEndToEnd | backend/main.py:40-54 | a month-to-month customer with charges > 70 and tenure < 12 gets all four factors, all four churn recommendations and a [100, 0] doughnut |

## Left out

- Rendering is left out: `innerHTML` templating, element lookups, class-list calls and Chart.js configuration and styling. Indicators are state fields, and a chart is an instance in a slot.
- The network and frameworks are left out: `fetch`, JSON parsing and serialisation, `console.error`, FastAPI, uvicorn, CORS and `read_root`. A reply is a parameter: a failed connection, or a status with a body that did or did not parse.
- Pydantic's validation of `features` is left out. The request's features are exact reals.
- `animateKPIs` and the `setTimeout` that sets the bar's width are left out. The model writes the bar's value at once.
- Randomness is a parameter. `random.uniform(-0.1, 0.1)` becomes `noise` in [-0.1, 0.1]. The `Math.random()` values of the trend loop become `draws` in [0, 1), in call order.
- Dates are left out. Trend labels are days before today instead of `toLocaleDateString` strings.
- Number formatting is left out. This covers `toFixed(1)` and the risk-factor texts that quote the charges or tenure. Those factors carry the quoted value instead (`FixedText` is `None` for them). The two fixed risk-factor texts, the recommendation texts and all icons are modelled.
- `parseInt`/`parseFloat` on arbitrary strings and NaN are left out. This includes NaN being falsy in `probability || 0` and the counter's `parseInt` of its text. Form values and the counter are well-formed numbers.
- A response whose `prediction` or `probability` is not a number (a string, a boolean) is left out. The fields are optional reals.
- DashboardUi.Dashboard.Submit requires a contract label that is one of the map's own keys. Any other label gives `undefined` (or, for a name such as `toString`, an inherited property). The model does not follow that case; `BuildData` returns `None` for it.
- Floating point is left out. Arithmetic is on exact reals, so rounding near the 0.6 and 0.7 thresholds is not captured. That includes the clamp and whether 0.5 + 0.1 exceeds 0.6. It also includes the trend bands: in doubles `12 + r*8` and `88 - r*8` can round to exactly 20 and 80, so the source's bands are closed, while the model's exact-real bands are [12, 20) and (80, 88].
- Overlapping submissions and their last-arrival-wins race are left out. Replies are handled one at a time, each in full, in arrival order (`Run`).
- The page markup (`index.html`) is not part of this model. The start-up state assumes the result panel and bar are hidden, the badge is blank and the bar reads 0.
