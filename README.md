# Lesotho healthcare cost prediction service — a Dafny model

This project models the core of a small web service. The service estimates
one person's yearly healthcare cost in Lesotho Loti from nine demographic
and socioeconomic fields. It does three things, and the model covers each:

- **Validating the request body** (`Schema`). There is a range for age,
  household size and income, and a fixed set of labels for sex, region,
  employment, access to care and type of care. A separate validator
  re-checks the income.
- **Loading and using a trained model** (`Prediction`). At import time the
  prediction module loads four artifact files: a regression model, a
  feature scaler, the feature list and the label encoders. `predict_cost`
  uses the trained model only when both the model and the scaler are
  loaded. Before the model runs, the categorical columns are label-encoded
  and the columns are put in feature-list order. Otherwise an additive
  fallback estimator is used (`AdditiveDemo`). That estimator is a sum of
  per-field contributions with a random variation of ±5% and a floor of
  1000 Loti.
- **The HTTP layer** (`Api`, `MainDemo`).
  - At start-up the service binds the prediction module. If the import
    fails it switches to demo mode.
  - `/predict` routes a validated request to one of three estimators. The
    third is a multiplicative fallback (`MainDemo`): a base sum scaled by
    regional, insurance, private-care, access and household factors, with
    a floor of 500 Loti.
  - `/predict` then builds the answer from the cost, the model type and an
    explanation. Errors are sorted into client errors (400) and server
    errors (500).
  - `/health` reports whether a model is bound and how many features are
    loaded.

The fitted scaler and the fitted regression model are opaque functions
(`Scaler.transform`, `Model.predict`). Artifact files are parameters: the
contents of each file, or `None` when it is missing. The random draw of
the additive fallback is a parameter `v` with `-0.05 <= v <= 0.05`.

Behaviours of the code that are easy to misread:

- **Validation failures answer 422, not 400.** The framework rejects an
  invalid body with 422 before the handler runs. Only a `ValueError`
  raised inside the handler answers 400 (`Api.Predict`, `Api.StatusCode`).
- **The trained path has no floor.** Its answer is not raised to any
  minimum. Only the two fallbacks are floored, at 1000 and at 500.
- **A missing artifact file does not mean demo mode.** Loading stops at the
  first missing file and keeps whatever was already loaded. It then
  installs the default feature list, even over a list that was loaded.
  So a model without a scaler reaches the additive fallback. A model and
  scaler without the feature-list file or without the encoder file leave
  the encoders unbound. Every prediction then fails with a server error,
  because the code tests membership in `None` (`Api.MissingEncodersFailEveryRequest`).
- **A failed feature vector answers 400 or 500 depending on its cause.**
  A feature name that is not a request column, such as a one-hot
  `region_Maseru`, fails the column selection and answers 500. A
  categorical feature without an encoder reaches the scaler as text; that
  is a value error and answers 400 (`Prediction.FeatureVector`).
- **The import can succeed with no model.** In that case the handler uses
  the multiplicative fallback but still reports the model type
  "Linear Regression" (`Api.MissingModelAnswersUnderTrainedName`).
- **A model without a scaler is described as the trained model.** The
  handler checks only for a model, so the explanation says the prediction
  is based on the regression trained on Lesotho healthcare data. The
  prediction module checks for the scaler too, so the number comes from the
  additive fallback (`Api.MissingScalerAnswersAsTrainedModel`).
- **The income validator never rejects.** The income range is declared as a
  field constraint. The framework runs the income validator only when that
  constraint holds, so the validator always returns the income unchanged
  (`Schema.IncomeErrors`).

## Model

| member | source | states |
|---|---|---|
| Schema.ParseSex | main.py:57 | a label parses exactly when it is one of the two permitted sexes, and parsing inverts `SexName` |
| Schema.ParseRegion | main.py:58-61 | a label parses exactly when it is one of the eight regions, and parsing inverts `RegionName` |
| Schema.ParseEmployment | main.py:63-65 | a label parses exactly when it is one of the three employment statuses, and parsing inverts `EmploymentName` |
| Schema.ParseAccess | main.py:67-69 | a label parses exactly when it is one of the three access levels, and parsing inverts `AccessName` |
| Schema.ParseCareType | main.py:73-75 | a label parses exactly when it is public or private, and parsing inverts `CareTypeName` |
| Schema.ToRow | main.py:54-75 | every typed request turns into a body that satisfies every field constraint |
| Schema.ValidateIncome | main.py:77-84 | income is accepted and returned unchanged exactly when it lies in 5000..200000; below or above that range it is rejected with its own message |
| Schema.FieldCheck | main.py:54-84 | one field's check reports at most one error, and that error names the field |
| Schema.FieldCheckMeaning | main.py:56-75 | each field's check is silent exactly when that field's declared range or literal set holds |
| Schema.ErrorsForEmpty | main.py:54-84 | checking a list of fields reports nothing exactly when each field's check is silent |
| Schema.Valid | main.py:54-75 | a body is valid exactly when its checks report no error at all |
| Schema.EveryErrorNamesAField | main.py:54-84 | a non-empty error list names at least one of the nine fields |
| Schema.ErrorsForReports | main.py:54-84 | a field is named among the errors exactly when it is listed and its check fails |
| Schema.ErrorsNameEachViolation | main.py:54-84 | each of the nine fields is named among the errors exactly when it violates its constraint |
| Schema.ReportsAppend | main.py:54-84 | a field is reported in concatenated error lists exactly when it is reported in one of them |
| Schema.Validate | main.py:54-84 | a body is accepted exactly when it is valid; the accepted request turns back into the same body; a rejection carries exactly the field errors of the body, at least one |
| Schema.IncomeErrors | main.py:70-84 | income errors occur exactly outside 5000..200000; each names the income field and none comes from the validator, because the range constraint rejects first |
| Schema.LabelsRoundTrip | main.py:57-75 | the label of every enumeration value parses back to that value, for each of the five closed field types |
| Schema.RequestRoundTrip | main.py:54-75 | validating the body of any typed request gives back that request |
| Schema.AgeBoundsRejected | main.py:56 | ages 17 and 101 are rejected, and the errors name the age field |
| MainDemo.RegionalFactor | main.py:111-115 | the regional multiplier lies between 0.75 and 1.3, including the neutral 1.0 for an unknown region |
| MainDemo.AccessFactor | main.py:120 | the access multiplier lies between 0.9 and 1.2 |
| MainDemo.HouseholdFactor | main.py:121 | the household factor is 2% less per extra member, never below 0.8 and never above 1.0; it equals 0.8 from eleven members on |
| MainDemo.Factors | main.py:115-124 | the cost is the product of six factors; the third is the insurance discount |
| MainDemo.RawCost | main.py:124 | for an adult with non-negative income the raw cost is positive; with at least one household member it lies between 0.378 and 2.184 times the base sum |
| MainDemo.DemoPredictCost | main.py:124-126 | the cost is at least 500, at least the raw product, and equal to one of the two |
| MainDemo.UnknownKeysNeutral | main.py:115-120 | a region or access level outside the enumerations gets the neutral multiplier 1.0 |
| MainDemo.ProductPositive | main.py:124 | a product of positive factors is positive |
| MainDemo.ProductMonotone | main.py:124 | raising non-negative factors never lowers the product |
| MainDemo.ProductScale | main.py:124 | scaling one factor by k scales the product by k |
| MainDemo.FactorsPositive | main.py:106-124 | for an adult with non-negative income, every factor is positive |
| MainDemo.ValidIsAdultWithIncome | main.py:56-72 | every valid body is an adult with non-negative income |
| MainDemo.InsuredNeverCostlier | main.py:118-126 | all else equal, the insured raw cost is exactly 70% of the uninsured raw cost, strictly lower, and the floored cost is never higher; with at least one household member it is strictly lower |
| MainDemo.FloorNeverApplies | main.py:124-126 | for an adult with non-negative income and at least one household member the raw cost is at least 756, so the 500 floor never applies |
| MainDemo.CostMonotoneInAge | main.py:107-126 | all else equal, neither the raw cost nor the floored cost decreases with age; an older person's raw cost is strictly higher, and so is the floored cost with at least one household member |
| MainDemo.ExampleCost | main.py:101-126 | the worked example is valid; it costs 5286.62862 insured and 7552.3266 uninsured |
| AdditiveDemo.PreTotal | API/prediction.py:97-150 | for a body within the age, household and income ranges, the total before variation lies between -2875 and 26650 |
| AdditiveDemo.Perturb | API/prediction.py:152-154 | the random variation moves the total by at most 5% of its size, in either direction |
| AdditiveDemo.PredictDemo | API/prediction.py:147-157 | the estimate is at least 1000, at least the perturbed total, and equal to one of the two |
| AdditiveDemo.UnknownKeysContributeZero | API/prediction.py:112-142 | an access level, employment status or region outside the tables contributes 0 |
| AdditiveDemo.AgeAddsSeventyFive | API/prediction.py:101 | one more year of age adds exactly 75 to the total |
| AdditiveDemo.TotalIncreasingInAge | API/prediction.py:101-150 | all else equal, the total strictly increases with age |
| AdditiveDemo.HouseholdMemberSubtractsThreeHundred | API/prediction.py:110 | one more household member takes exactly 300 off the total |
| AdditiveDemo.InsuranceSavesFortyFiveHundred | API/prediction.py:104 | all else equal, the insured total is 4500 below the uninsured total |
| AdditiveDemo.PerturbLinear | API/prediction.py:153-154 | for the same draw, a lower total stays lower after the variation |
| AdditiveDemo.CostMonotoneInAge | API/prediction.py:101-157 | for the same draw, an older person's total after the variation is strictly higher and the floored estimate never lower |
| AdditiveDemo.InsuredNeverCostlier | API/prediction.py:104-157 | all else equal, the insured person's estimate is strictly lower before the floor and never higher after it, whatever the draw |
| Prediction.LoadModelComponents | API/prediction.py:19-36 | files load in order and loading stops at the first missing one; the scaler is bound only after the model; encoders are bound only when all four files are present; otherwise the default feature list replaces any loaded one |
| Prediction.IndexOf | API/prediction.py:71 | a label's index is found exactly when the label is a known class; it is the first position holding that label |
| Prediction.LabelRoundTrip | API/prediction.py:71 | with distinct classes, encoding a class gives its index and an index decodes to its class |
| Prediction.EncodeColumn | API/prediction.py:70-71 | encoding one column keeps the frame's columns and changes no other column; it fails only because the encoders are not loaded or the label is unseen |
| Prediction.EncodeColumns | API/prediction.py:69-71 | the loop keeps the frame's columns and leaves unlisted columns unchanged; it fails only because the encoders are not loaded or a listed column holds an unseen label |
| Prediction.EncodeColumnsSpec | API/prediction.py:69-71 | the encoding loop succeeds exactly when every listed column can be encoded; it keeps the frame's columns, re-encodes each listed column and leaves all other columns unchanged |
| Prediction.EncodeCategoricals | API/prediction.py:63-71 | the in-place loop over the five categorical columns yields exactly the specified encoding, error included |
| Prediction.EncodingRewritesOnlyEncodedCategoricals | API/prediction.py:67-71 | after encoding, a categorical column that has an encoder holds its label code; every other column is unchanged |
| Prediction.EncodersMissingFailsEveryRequest | API/prediction.py:70 | without loaded encoders, every request frame fails at the membership test |
| Prediction.Missing | API/prediction.py:74 | the missing names are exactly the listed names the frame lacks |
| Prediction.Project | API/prediction.py:74 | projection succeeds exactly when every feature is a column; it gives one cell per feature in feature-list order; otherwise it fails and names the missing columns |
| Prediction.ToNumbers | API/prediction.py:77 | the cells become numbers exactly when all of them are numbers; otherwise the result is a value error |
| Prediction.FeatureVector | API/prediction.py:63-77 | the vector is built whenever encoding succeeds and every feature is a column holding a number; on success there is one number per feature name, each the encoded cell of that column; a failure carries the encoding error, the unloaded feature list, the missing feature columns, or otherwise a non-numeric feature |
| Prediction.NumericColumnsProject | API/prediction.py:74-77 | selecting feature columns that are all present and all numbers succeeds and yields only numbers |
| Prediction.PredictWithModel | API/prediction.py:53-82 | succeeds exactly when the feature vector can be built, and then answers the model applied to the scaled vector; otherwise it fails with the feature vector's error |
| Prediction.RowFrame | main.py:166 | the one-row frame has exactly the nine request columns |
| Prediction.RowFrameShape | main.py:166 | the request frame holds numbers in its numeric columns and has every categorical column |
| Prediction.EncodedFrameIsNumeric | API/prediction.py:67-71 | after encoding, numeric columns keep their values and categorical columns hold their label codes |
| Prediction.FeatureVectorOfRequest | API/prediction.py:63-77 | suppose encoders cover all categorical columns and know the request's labels, and every feature name is a request column; then the feature vector exists, in feature order, holding raw values and label codes |
| Prediction.PredictCost | API/prediction.py:38-51 | with both a model and a scaler the result is the trained model's answer on the request frame; otherwise it is the additive estimate, which succeeds with at least 1000 |
| Prediction.DispatchByComponents | API/prediction.py:48-51 | the trained path ignores the random draw |
| Api.ModelType | main.py:18-33 | the model type is "Linear Regression" exactly when the import succeeded, and the demo label otherwise |
| Api.Route | main.py:169-174 | the trained model exactly when a model and a scaler are bound; the additive fallback exactly when only a model is bound; the multiplicative fallback exactly when the import failed or no model is bound |
| Api.Estimate | main.py:169-174 | every route except the trained model succeeds with at least 500 |
| Api.StatusCode | main.py:184-196 | the status is 200, 400, 500 or 422, each for exactly one kind of response |
| Api.ConfidenceInfo | main.py:171-182 | the explanation starts with the lead sentence; it carries the insurance note exactly when the person is insured and the private-care note exactly when private care was chosen, each once, for any model type |
| Api.PredictHealthcareCost | main.py:164-196 | success exactly when the estimate succeeds; the answer carries the estimate, the bound model type and the explanation for the handler's model test and the request's notes; a value error answers 400 and any other error 500 |
| Api.AnswerNotesFollowRequest | main.py:176-182 | the notes of a successful answer read back as the request's insurance status and care type |
| Api.Predict | main.py:156-157 | an invalid body is answered 422 with exactly the body's field errors, at least one; a valid body is handled as the request it validates to |
| Api.HealthCheck | main.py:146-154 | the status is always healthy; the model status is "loaded" exactly when a model is bound, else "demo_mode" |
| Api.NotesDistinguishable | main.py:171-182 | neither note can be mistaken for the end of the lead sentence or of the other note |
| Api.NotesReadBack | main.py:176-182 | an explanation assembled from a lead sentence and the chosen notes begins with the lead and reads back exactly those notes |
| Api.RouteAfterLoad | API/prediction.py:19-51 | after start-up: the trained model iff both model and scaler files exist, the additive fallback iff only the model exists, the multiplicative fallback iff the model file is missing |
| Api.EstimateFollowsRoute | main.py:169-174 | each route computes its estimate with its own estimator |
| Api.FallbacksNeverFail | main.py:169-174 | only the trained route can fail; the additive route answers at least 1000; only the additive route depends on the random draw |
| Api.MissingEncodersFailEveryRequest | API/prediction.py:23-70 | with model and scaler files present but the feature-list or encoder file missing, every valid request is answered 500 |
| Api.MissingModelAnswersUnderTrainedName | main.py:169-189 | with the model file missing, every request succeeds with the multiplicative estimate under the model type "Linear Regression" |
| Api.MissingScalerAnswersAsTrainedModel | main.py:169-171 | with the model file present and the scaler file missing, every request succeeds with the additive estimate, explained as the trained Linear Regression |
| Api.InsuredNeverCostlierOnFallbacks | main.py:169-174 | on either fallback, being insured never raises the estimate, all else equal |
| Api.OlderNeverCheaperOnFallbacks | main.py:169-174 | on either fallback an older person never gets a lower estimate, all else equal; on the multiplicative route it is strictly higher |
| Api.HealthAfterLoad | main.py:146-154 | after start-up the model status follows the model file; features loaded is 9 unless all files exist; when they do it is the loaded list's length, or 9 for an empty list; demo mode reports 9 |
| Api.ExampleValidates | main.py:54-84 | the worked example validates to the expected typed request |
| Api.ExampleInDemoMode | main.py:156-189 | in demo mode the worked example is answered with 5286.62862, the demo model type and both notes |

## Left out

- HTTP plumbing: the framework, CORS, logging and documentation routes are framework configuration rather than logic.
- The static payloads of `/` and `/model-info` compute nothing.
- Time stamps in responses and the health report come from the clock.
- Reading artifact files from disk is replaced by the file contents as parameters. Load failures other than a missing file are not modelled.
- The random draw is a parameter constrained to -0.05..0.05.
- The fitted scaler and model are opaque functions. Errors they could raise, such as a wrong number of features, are not modelled.
- Data frames are one-row maps from column name to cell. Library conversions such as pandas dtypes are not modelled.
- Missing body fields and type coercion by the framework are not modelled: a body arrives already typed.
- Floating point: costs, factors and incomes are exact reals, so rounding error and overflow are not modelled.
- AdditiveDemo.PredictDemo: does not model rounding the result to two decimals.
- Api.PredictHealthcareCost: does not model rounding the answer to two decimals.
- Prediction.PredictWithModel: the model and scaler are opaque functions, so its value is stated only as the model applied to the scaled feature vector.
- The fallback chain of two import paths in main.py:19-33 is collapsed into one outcome, imported or failed, because both paths bind the same names.
