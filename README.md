# Health insurance premium predictor: risk classifier and submit step

This project models the decision logic of a single-page health insurance
premium predictor. A form collects an applicant profile: age, number of
dependants, income in lakhs, genetical risk, gender, marital status, BMI
category, smoking status, employment status, region, medical history and
insurance plan. When the user presses the predict button, the page marks the
prediction as shown and hands the profile to an external premium predictor.
If the predictor returns a premium, the page stores it in the session. It then
computes a heuristic risk score from four of the fields and shows the premium
with a Low, Medium or High risk label in green, orange or red. If the
predictor raises an exception, the page shows only an error message.

The model has three modules:

- `Profiles` (`profile.dfy`): one datatype per select box, with the labels and
  option lists of the page, and the typed `Profile` record with a `Valid()`
  predicate for the integer widgets' ranges (age 18–100, dependants 0–20,
  income 0–200, genetical risk 0–5). A medical history is either `NoDisease`
  or `Disease` of one of eight disease combinations; together these are the
  nine options of its select box.
- `Risk` (`risk.dfy`): the per-factor points, the score `RiskScore` as a
  specification function, the score as the page accumulates it with `+=`
  (`ComputeRiskScore`, a method proved equal to `RiskScore`), the thresholds
  (`LevelOf`), and `Classify`, whose contract characterises High and Low
  directly in terms of the four factors.
- `Session` (`session.dfy`): the two session keys `show_prediction` and
  `prediction_value` as a `SessionState` class, with the initialisation that
  every rerun of the page executes and the submit step. The predictor is a
  function parameter `Profile -> Outcome<real>`: it returns either a premium
  or the cause of a failure.

## Model

| member | source | states |
|---|---|---|
| Profiles.GenderLabel | main.py:150 | the gender label is one of the gender select box's options |
| Profiles.MaritalStatusLabel | main.py:151 | the marital status label is one of its select box's options |
| Profiles.BmiCategoryLabel | main.py:152 | the BMI category label is one of its select box's options |
| Profiles.SmokingStatusLabel | main.py:153 | the smoking status label is one of its select box's options |
| Profiles.EmploymentStatusLabel | main.py:154 | the employment status label is one of its select box's options |
| Profiles.RegionLabel | main.py:155 | the region label is one of its select box's options |
| Profiles.MedicalHistoryLabel | main.py:156-160 | the medical history label is one of the nine options |
| Profiles.ConditionLabel | main.py:156-160 | a disease combination's label is one of the eight options after "No Disease" |
| Profiles.InsurancePlanLabel | main.py:161 | the insurance plan label is one of its select box's options |
| Profiles.SmokingStatusOptionsCovered | main.py:153 | every smoking option is the label of exactly one smoking status |
| Profiles.MedicalHistoryOptionsCovered | main.py:156-160 | every one of the nine medical history options is the label of exactly one medical history |
| Profiles.MedicalHistoryLabelInjective | main.py:156-160 | two medical histories with the same label are the same |
| Profiles.BmiCategoryOptionsCovered | main.py:152 | every BMI option is the label of exactly one BMI category |
| Profiles.OtherOptionsCovered | main.py:149-162 | gender, marital status, employment, region and plan options correspond one to one to their datatypes |
| Profiles.Profile.Valid | main.py:169-189 | a profile is valid exactly when age is 18 to 100, dependants 0 to 20, income 0 to 200 and genetical risk 0 to 5, the ranges of the four integer widgets |
| Profiles.DefaultProfile | main.py:169-214 | the untouched form is a valid profile: age 30, 2 dependants, income 15, genetical risk 2, and the first option of every select box |
| Risk.RiskScore | main.py:246-251 | the score always lies between 0 and 7 |
| Risk.ComputeRiskScore | main.py:246-251 | starting from 0 and adding 3 or 1 for smoking, 2 for a medical history, 1 for BMI and 1 for age gives exactly `RiskScore` |
| Risk.Classify | main.py:246-257 | the level is High exactly when a regular smoker has another factor, or a medical history comes with occasional smoking and BMI or age, or with both BMI and age; it is Low exactly when there is no medical history and smoking, BMI and age give at most one point |
| Risk.PointsFollowLabels | main.py:247-250 | each factor's points are what the page's string tests give on the factor's label: "Regular" 3, "Occasional" 1, anything but "No Disease" 2, "Obesity" or "Overweight" 1 |
| Risk.SmokingContribution | main.py:247-248 | Regular smoking adds 3 and Occasional adds 1 over No Smoking |
| Risk.MedicalHistoryContribution | main.py:249 | any medical history other than No Disease adds exactly 2 over No Disease |
| Risk.BmiContribution | main.py:250 | Obesity and Overweight add 1, Underweight scores the same as Normal |
| Risk.AgeContribution | main.py:251 | every age up to 50 scores like 50, every age above scores like 51, and 51 scores one more than 50 |
| Risk.ScoreAttainable | main.py:246-251 | every score from 0 to 7 is reached by some valid profile |
| Risk.RiskLevel.Label | main.py:253-257 | the words "Low", "Medium" and "High" in rank order |
| Risk.RiskLevel.Colour | main.py:253-257 | the colours #4CAF50, #FF9800 and #F44336 in rank order |
| Risk.LevelOf | main.py:252-257 | a score of at most 1 is Low, 2 to 3 is Medium, 4 or more is High |
| Risk.LevelThresholds | main.py:252-257 | the card shows "Low" in #4CAF50 for a score of at most 1, "Medium" in #FF9800 for 2 to 3, and "High" in #F44336 otherwise |
| Risk.LevelOfMonotone | main.py:252-257 | a higher score never yields a lower level |
| Risk.ClassifyMonotone | main.py:247-257 | moving any factors to values that score at least as much never lowers the level |
| Risk.RegularSmokerWithOtherFactorIsHigh | main.py:247-257 | a regular smoker with any one other factor is High |
| Risk.NoFactorIsLow | main.py:246-253 | no smoking, no disease, a BMI other than Obesity or Overweight and age at most 50 score 0, which is Low |
| Risk.LevelIgnoresOtherFields | main.py:246-251 | two profiles that agree on smoking, medical history, BMI and age get the same level, whatever their other fields |
| Risk.EveryLevelAttainable | main.py:246-257 | each of Low, Medium and High is the level of some valid profile |
| Risk.DefaultProfileIsLow | main.py:169-214 | the untouched form scores 0 and is Low |
| Risk.WorkedExamples | main.py:246-257 | Regular, Heart Disease, Obesity, 60 scores 7 (High); Occasional, No Disease, Normal, 30 scores 1 (Low); No Smoking, Diabetes, Overweight, 45 scores 3 (Medium) |
| Session.Evaluate | main.py:243-257 | an evaluation succeeds exactly when the predictor does, with the predictor's premium and the profile's risk level; a failure carries the predictor's cause and no level |
| Session.Render | main.py:258-266 | a result card exactly for a successful evaluation, carrying its premium and its level's word and colour; for a failure, a message that is "Prediction failed: " followed by the cause |
| Session.RenderedEvaluation | main.py:243-266 | the page shows a result card exactly when the predictor succeeds; for the same predictor outcome, what is shown does not depend on fields other than the four risk factors; a failure shows "Prediction failed: " followed by the cause |
| Session.Initialized | main.py:17-21 | after initialisation both keys are present; a present key keeps its value, an absent `show_prediction` becomes false and an absent `prediction_value` becomes 0 |
| Session.AfterSubmit | main.py:237-245 | after a submit `show_prediction` is true; the stored premium becomes the predictor's value on success and is unchanged on failure |
| Session.InitializedIdempotent | main.py:17-21 | rerunning the initialisation changes nothing, after an earlier initialisation or after a submit |
| Session.FailureKeepsEarlierPremium | main.py:243-266 | a failed submit after a successful one keeps the earlier premium and still marks the prediction shown |
| Session.SessionState.constructor | main.py:17-21 | a new session holds neither key |
| Session.SessionState.Initialize | main.py:17-21 | the session's keys become `Initialized` of the old keys |
| Session.SessionState.Submit | main.py:237-266 | the session's keys become `AfterSubmit` of the old keys and the predictor's outcome, and what is shown is the rendered evaluation of the profile |

## Left out

- The premium predictor's inference: its source is not part of this model. It is a function parameter that either returns a premium or fails with a cause, and it is treated as deterministic in the profile.
- Page layout, CSS, HTML markup and the widgets themselves: presentation only. Their ranges and option lists are modelled as `Profile.Valid()` and the datatypes of `Profiles`.
- The two-second sleep and the loading placeholder: timing and UI. A run stopped there (for example by a widget interaction that starts a rerun) leaves `show_prediction` true with no predictor call and no message; runs stopped before the predictor is called are not modelled, and `Submit` always runs to the end.
- The thousands-separator formatting of the premium on the result card: the card carries the premium as a number.
- The premium's type: Python stores the integer 0 first and then whatever the predictor returns (possibly a float). The model uses `real` throughout, with 0 as `0.0`, and does not model floating-point rounding.
- The input dictionary with string keys: it is the typed `Profile` record, one field per key. The labels the dictionary carries are the `...Label` functions.
- Exceptions raised anywhere other than inside the predictor (for example by the formatting of a non-numeric premium): only the predictor's failure is modelled.
- The plotting, dataframe and numeric imports: the page never uses them.
