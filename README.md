# Oil contamination risk: operator input, risk tiers and the evaluation cache

A Dafny model of the sequential logic inside a water-quality classifier that estimates oil
contamination risk. Two scripts hold it.

- `modelo_ml.py`, on the operator side:
  - `sanitize_input` is a recogniser for decimal literals (`^-?\d+(?:\.\d+)?$`) and their exact value.
  - `validate_input` is the inclusive range check.
  - `VALID_RANGES` and `NUMERIC_COLS` are tables. `Defaults` holds the 15 fixed constants.
  - `get_user_input` re-prompts each of pH, Turbidity and Conductivity until a value is accepted, then completes the 18-feature record.
  - The three-tier advisory (LOW up to 33 %, MODERATE up to 50 %, HIGH above) is chosen from the contamination percentage.
- `avaliacao.py`, on the evaluation side:
  - `init` is the lazy, guarded loader of the four cache globals.
  - The metric entry points call `init` first. They then compute the confusion matrix, precision, recall and F1 for class 1, and the numbers of `classification_report`.

Modules, one per file:

- `Outcomes` (`outcomes.dfy`): the Option, Result and error types.
- `Schema` (`schema.dfy`): the column order, the range table and the default table.
- `Sanitizer` (`sanitizer.dfy`): the literal grammar, its parser and the range check.
- `UserInput` (`user_input.dfy`): the imperative collection loop and default completion, proved against the `Collect` / `UserRecord` functions.
- `RiskPolicy` (`risk_policy.dfy`): the tiering and the verbatim advisory lines.
- `Metrics` (`metrics.dfy`): the binary classification metrics.
- `EvaluationCache` (`evaluation_cache.dfy`): the `Evaluator` class, whose fields are the four globals. `Init` and the metric entry points are methods, proved against the pure step function `InitStep`.

Behaviour of the code that the model keeps:

- Initialisation is guarded only by `_model is None`, and `_model` is assigned before the test data is read. A failure after that point leaves the cache stuck: later calls skip loading, and the metrics fail on the unset fields. `PartialFailureSticks` proves this. A retry behaves as a first call only when the model load itself failed (`RetryAfterModelLoadFailure`).
- Initialisation caches the predicted labels `_y_pred` and no predicted probabilities. Probabilities are computed only by the ROC curve, which is not part of this model.
- A failing load is logged and its exception re-raised as it is. The model carries that error unchanged to the caller.
- The tier compares the percentage `probability * 100` with 33 and 50. With exact reals this is the same as comparing the probability with 0.33 and 0.5, which `Assess` states and `AssessBoundaries` shows at 0.33, 0.3301, 0.50 and 0.5001.

Operator input is a sequence of already-stripped lines. Each loop iteration of the source consumes one line. Running out of lines gives `None`, where the program would keep prompting.

## Model

| member | source | states |
|---|---|---|
| Schema.ColumnsDistinct | ML_petroleo_update/src/modelo_ml.py:35-39 | `NUMERIC_COLS` lists 18 pairwise distinct names |
| Schema.RangesCoverOperatorCols | ML_petroleo_update/src/modelo_ml.py:28-32 | `VALID_RANGES` has exactly the keys pH, Turbidity, Conductivity, and every interval is non-empty |
| Schema.OperatorAndDefaultDisjoint | ML_petroleo_update/src/modelo_ml.py:77-92 | no fixed default is assigned to an operator-entered column |
| Schema.SchemaPartition | ML_petroleo_update/src/modelo_ml.py:77-94 | the operator columns and the defaulted columns together are exactly the 18 columns |
| Sanitizer.Sanitize | ML_petroleo_update/src/modelo_ml.py:41-45 | the conversion raises no error other than the format error, and the empty line is refused; its accepted texts and their values are stated by `SanitizeAcceptsExactlyLiterals` and `SanitizeValue` |
| Sanitizer.ParseSound | ML_petroleo_update/src/modelo_ml.py:41-45 | whatever the parser accepts is a well-formed numeral whose text is exactly the input |
| Sanitizer.ParseRender | ML_petroleo_update/src/modelo_ml.py:43 | every well-formed numeral's text parses back to that numeral |
| Sanitizer.SanitizeAcceptsExactlyLiterals | ML_petroleo_update/src/modelo_ml.py:41-45 | sanitisation succeeds if and only if the text is a decimal literal; everything else raises |
| Sanitizer.SanitizeValue | ML_petroleo_update/src/modelo_ml.py:43-44 | an accepted literal converts to the exact decimal value of its sign, digits and fraction digits |
| Sanitizer.SanitizeSign | ML_petroleo_update/src/modelo_ml.py:43-44 | an accepted value is non-negative without a leading `-` and non-positive with one |
| Sanitizer.AcceptedShape | ML_petroleo_update/src/modelo_ml.py:43 | accepted text ends in a digit, starts with `-` or a digit, has at most one `.`, and that `.` sits between two digits |
| Sanitizer.SanitizeRejectsMissingDigits | ML_petroleo_update/src/modelo_ml.py:43-45 | "", "-", "abc", "+7", ".5" and "5." are rejected: a sign alone, a plus sign, or a point without digits on both sides |
| Sanitizer.SanitizeRejectsExponent | ML_petroleo_update/src/modelo_ml.py:43-45 | "1e5" is rejected: no exponent notation |
| Sanitizer.SanitizeRejectsTwoPoints | ML_petroleo_update/src/modelo_ml.py:43-45 | "7.2.3" is rejected: at most one decimal point |
| Sanitizer.SanitizeNatural | ML_petroleo_update/src/modelo_ml.py:43-44 | a plain digit string converts to its decimal value |
| Sanitizer.SanitizeSeven | ML_petroleo_update/src/modelo_ml.py:43-44 | "7" converts to 7 |
| Sanitizer.SanitizeMinusThreePointTwo | ML_petroleo_update/src/modelo_ml.py:43-44 | "-3.2" converts to -3.2 |
| Sanitizer.SanitizeZeroPointZero | ML_petroleo_update/src/modelo_ml.py:43-44 | "0.0" converts to 0 |
| Sanitizer.Validate | ML_petroleo_update/src/modelo_ml.py:47-49 | a value passes only when the range is non-empty |
| Sanitizer.ValidateEndpoints | ML_petroleo_update/src/modelo_ml.py:47-49 | both endpoints of a non-empty range pass |
| Sanitizer.ValidateEmptyRange | ML_petroleo_update/src/modelo_ml.py:47-49 | nothing passes when the lower bound exceeds the upper |
| Sanitizer.ValidatePhExamples | ML_petroleo_update/src/modelo_ml.py:47-49 | pH 0, 7 and 14 pass and 14.0001 fails |
| UserInput.NextAccepted | ML_petroleo_update/src/modelo_ml.py:59-75 | the first line from the cursor that sanitises and validates; every line skipped is rejected; none means no line is accepted |
| UserInput.ReadNext | ML_petroleo_update/src/modelo_ml.py:59-72 | one column's retries yield a value inside the column's range, converted from a line at or after the cursor, with the cursor moved past that line; no value only when every remaining line is refused |
| UserInput.Collect | ML_petroleo_update/src/modelo_ml.py:57-72 | the values for a list of columns use at least one line per column and no more lines than were typed |
| UserInput.UserRecord | ML_petroleo_update/src/modelo_ml.py:57-94 | a record is produced only when at least one line was typed per operator column |
| UserInput.ReadColumn | ML_petroleo_update/src/modelo_ml.py:59-75 | the retry loop returns the value of the first accepted line and the cursor after it, as `ReadNext` specifies |
| UserInput.CollectColumns | ML_petroleo_update/src/modelo_ml.py:57-75 | the loop over the columns, each read from where the previous stopped, yields exactly `Collect`, and nothing once a column runs out of lines |
| UserInput.FillDefaults | ML_petroleo_update/src/modelo_ml.py:77-92 | the 15 sequential assignments give the record overridden by the default table |
| UserInput.GetUserInput | ML_petroleo_update/src/modelo_ml.py:51-94 | the collection loop and completion produce exactly `UserRecord` of the input lines |
| UserInput.CollectStaysNone | ML_petroleo_update/src/modelo_ml.py:57-68 | once input runs out for a column, the whole collection yields nothing |
| UserInput.CollectShape | ML_petroleo_update/src/modelo_ml.py:57-68 | collected values have exactly the columns asked for, and each value came from an accepted line |
| UserInput.CollectedValuesValid | ML_petroleo_update/src/modelo_ml.py:57-68 | every collected value lies in its column's range and is the value of one of the typed lines |
| UserInput.UserRecordColumns | ML_petroleo_update/src/modelo_ml.py:77-94 | the completed record has exactly the 18 keys of `NUMERIC_COLS` |
| UserInput.UserRecordOperatorValues | ML_petroleo_update/src/modelo_ml.py:57-92 | each stored pH, Turbidity and Conductivity value lies in its `VALID_RANGES` interval, is the value of a typed line, and is left unchanged by the completion with defaults |
| UserInput.UserRecordDefaults | ML_petroleo_update/src/modelo_ml.py:77-92 | each of the 15 other columns holds its fixed constant |
| UserInput.DefaultsIgnoreOperator | ML_petroleo_update/src/modelo_ml.py:77-92 | the defaulted columns do not depend on what the operator typed |
| UserInput.RetrySessionPh | ML_petroleo_update/src/modelo_ml.py:59-72 | with "abc" then "15" then "7", pH skips the malformed and the out-of-range line and stores 7 |
| UserInput.RetrySessionTurbidity | ML_petroleo_update/src/modelo_ml.py:59-68 | "5" is accepted for Turbidity |
| UserInput.RetrySessionFirst | ML_petroleo_update/src/modelo_ml.py:57-68 | the first three lines give pH 7 with the cursor at 3 |
| UserInput.RetrySessionConductivity | ML_petroleo_update/src/modelo_ml.py:59-68 | "100" is accepted for Conductivity |
| UserInput.RetrySessionFirstTwo | ML_petroleo_update/src/modelo_ml.py:57-68 | the first four lines give pH 7 and Turbidity 5 |
| UserInput.RetrySessionCollected | ML_petroleo_update/src/modelo_ml.py:57-68 | a session starting with the five RetrySession lines collects pH 7, Turbidity 5 and Conductivity 100 from its first five lines |
| UserInput.RetryExample | ML_petroleo_update/src/modelo_ml.py:51-94 | the five-line session completes a record with pH 7 |
| UserInput.RetryExampleRunsOut | ML_petroleo_update/src/modelo_ml.py:57-68 | without its last line the session yields no record |
| RiskPolicy.Advisory | ML_petroleo_update/src/modelo_ml.py:167-182 | LOW prints four advisory lines and the other tiers five; the text is the source's, verbatim |
| RiskPolicy.Assess | ML_petroleo_update/src/modelo_ml.py:160-177 | the tier is LOW if and only if the probability is at most 0.33, MODERATE if and only if it is above 0.33 and at most 0.5, HIGH if and only if it is above 0.5; a probability in [0, 1] gives a percentage in [0, 100] |
| RiskPolicy.TierOf | ML_petroleo_update/src/modelo_ml.py:166-177 | LOW if and only if at most 33, MODERATE if and only if above 33 and at most 50, HIGH if and only if above 50 |
| RiskPolicy.TierMonotone | ML_petroleo_update/src/modelo_ml.py:166-177 | a larger percentage never gives a less severe tier |
| RiskPolicy.AdvisoryDeterminesTier | ML_petroleo_update/src/modelo_ml.py:167-182 | different tiers print different advisories |
| RiskPolicy.AssessBoundaries | ML_petroleo_update/src/modelo_ml.py:161-177 | probabilities 0.33, 0.3301, 0.50 and 0.5001 give LOW, MODERATE, MODERATE and HIGH |
| RiskPolicy.EveryTierReachable | ML_petroleo_update/src/modelo_ml.py:166-182 | each tier is chosen for some probability in [0, 1] |
| Metrics.Count | ML_petroleo_update/src/avaliacao.py:66 | a pair count never exceeds the number of samples |
| Metrics.Tally | ML_petroleo_update/src/avaliacao.py:66 | over binary labels, TN + FP + FN + TP is the number of samples |
| Metrics.CountIsCardinality | ML_petroleo_update/src/avaliacao.py:66 | a pair count is the number of positions holding that (actual, predicted) pair |
| Metrics.CountAbsent | ML_petroleo_update/src/avaliacao.py:66 | a pair whose actual or predicted label never occurs counts zero |
| Metrics.TallyTotal | ML_petroleo_update/src/avaliacao.py:66 | for binary labels, TN + FP + FN + TP is the number of samples |
| Metrics.ConfusionMatrix | ML_petroleo_update/src/avaliacao.py:66 | the matrix is square, one row and one column per label present |
| Metrics.ConfusionMatrixBinary | ML_petroleo_update/src/avaliacao.py:66 | with both labels present, the matrix is [[TN, FP], [FN, TP]] |
| Metrics.ConfusionMatrixTotal | ML_petroleo_update/src/avaliacao.py:66 | for binary labels, the matrix entries sum to the number of samples |
| Metrics.Ratio | ML_petroleo_update/src/avaliacao.py:56-57 | a ratio of counts lies in [0, 1]; it is 0 exactly when the numerator is 0 (including a zero denominator) and 1 exactly when numerator equals a positive denominator |
| Metrics.Precision | ML_petroleo_update/src/avaliacao.py:56 | precision lies in [0, 1]; it is 0 if and only if TP = 0, and 1 if and only if TP > 0 and FP = 0 |
| Metrics.Recall | ML_petroleo_update/src/avaliacao.py:57 | recall lies in [0, 1]; it is 0 if and only if TP = 0, and 1 if and only if TP > 0 and FN = 0 |
| Metrics.HarmonicMean | ML_petroleo_update/src/avaliacao.py:58 | the harmonic mean lies between its two arguments |
| Metrics.F1 | ML_petroleo_update/src/avaliacao.py:58 | F1 lies in [0, 1] |
| Metrics.F1FromCounts | ML_petroleo_update/src/avaliacao.py:58 | the harmonic mean of precision and recall equals 2TP / (2TP + FP + FN), and 0 on a zero denominator |
| Metrics.PrecisionRecallF1 | ML_petroleo_update/src/avaliacao.py:56-58 | precision and recall lie in [0, 1], and F1 is 0 if and only if there is no true positive |
| Metrics.WorkedExampleTally | ML_petroleo_update/src/avaliacao.py:66 | labels [0,1,0,1] against predictions [0,1,1,1] give TN 1, FP 1, FN 0, TP 2 |
| Metrics.WorkedExampleScores | ML_petroleo_update/src/avaliacao.py:56-58 | that example gives precision 2/3, recall 1 and F1 4/5 |
| Metrics.OrientedIsRelabelled | ML_petroleo_update/src/avaliacao.py:51 | the counts seen with class 0 as the positive class are exactly the counts of the samples with labels 0 and 1 exchanged |
| Metrics.CountFlip | ML_petroleo_update/src/avaliacao.py:51 | exchanging 0 and 1 in both label sequences moves each (actual, predicted) count to the exchanged pair |
| Metrics.RowFor | ML_petroleo_update/src/avaliacao.py:51 | a class row's support is the number of samples whose actual label is that class |
| Metrics.RowRecall | ML_petroleo_update/src/avaliacao.py:51 | the class 0 row's recall is TN / (TN + FP) and the class 1 row's is TP / (FN + TP), and each support is that denominator |
| Metrics.ClassificationReport | ML_petroleo_update/src/avaliacao.py:51 | the report fails, with a class count mismatch, exactly when the two target names do not match two present labels; otherwise the supports sum to the sample count |
| Metrics.ReportPositiveRow | ML_petroleo_update/src/avaliacao.py:51 | the class 1 row repeats the precision, recall and F1 of the metrics entry point, with support = actual 1 count |
| Metrics.ReportNegativeRow | ML_petroleo_update/src/avaliacao.py:51 | the report's class 0 line holds the precision, recall and F1 of the labels with 0 and 1 exchanged, and its support is the number of good-water samples |
| Metrics.WeightedRecallOfCounts | ML_petroleo_update/src/avaliacao.py:51 | the support-weighted mean of the two recalls is (TN + TP) / total |
| Metrics.WeightedRecallIsAccuracy | ML_petroleo_update/src/avaliacao.py:51 | the report's weighted-average recall equals its accuracy |
| EvaluationCache.Predict | ML_petroleo_update/src/avaliacao.py:42 | a prediction has one label per test row, each the model's label for that row, and fails exactly when the table has no rows or some row has the wrong feature count |
| EvaluationCache.InitStep | ML_petroleo_update/src/avaliacao.py:30-45 | afterwards `_model` is set exactly when it was before or its load succeeded; a failing call had no model before and leaves `_y_pred` as it was; a first call that passes fills all four fields |
| EvaluationCache.CachedLabels | ML_petroleo_update/src/avaliacao.py:51-66 | a metric reads both label sequences only when both are set, equally long and binary |
| EvaluationCache.Evaluator.constructor | ML_petroleo_update/src/avaliacao.py:25-28 | the four cache fields start unset |
| EvaluationCache.Evaluator.Init | ML_petroleo_update/src/avaliacao.py:30-45 | the new cache and outcome are those of `InitStep`; with the model already set nothing changes and nothing is raised; a consistent cache stays consistent |
| EvaluationCache.Evaluator.ReportScores | ML_petroleo_update/src/avaliacao.py:53-61 | calls init first; returns init's error, or the scores of the cache init leaves, which it does not otherwise change |
| EvaluationCache.Evaluator.ReportConfusionMatrix | ML_petroleo_update/src/avaliacao.py:63-66 | calls init first; returns init's error, or the confusion matrix of the cached labels, leaving the cache as init left it |
| EvaluationCache.Evaluator.ReportClassification | ML_petroleo_update/src/avaliacao.py:47-51 | calls init first; returns init's error, or the report of the cached labels, leaving the cache as init left it |
| EvaluationCache.InitIdempotent | ML_petroleo_update/src/avaliacao.py:30-33 | once `_model` is set, init changes none of the four fields and raises nothing |
| EvaluationCache.InitTwice | ML_petroleo_update/src/avaliacao.py:33-42 | after a call whose model load succeeded, every later call is a no-op |
| EvaluationCache.InitCompletes | ML_petroleo_update/src/avaliacao.py:39-42 | from the empty cache, init completes if and only if all three loads and the prediction succeed; then all four fields are set, and `_y_pred` is the cached model's prediction on the cached features with one entry per row |
| EvaluationCache.InitReraises | ML_petroleo_update/src/avaliacao.py:43-45 | the error of the first failing load reaches the caller unchanged |
| EvaluationCache.InitPreservesConsistent | ML_petroleo_update/src/avaliacao.py:30-45 | init keeps the fields set in load order and the cached prediction equal to the cached model's on the cached features |
| EvaluationCache.PartialFailureSticks | ML_petroleo_update/src/avaliacao.py:33-42 | if the model loads but a later step fails, the cache is stuck: later calls load nothing and every metric fails |
| EvaluationCache.RetryAfterModelLoadFailure | ML_petroleo_update/src/avaliacao.py:33-39 | a failed model load leaves the cache empty, so the next call acts as a first call |
| EvaluationCache.MetricsReadCache | ML_petroleo_update/src/avaliacao.py:53-58 | after a completed init, the scores are those of the test labels and the cached model's predictions |

## Left out

- The training pipeline (`executar_modelo` up to the prediction: dataset reading, train/test split, mean imputation, random forest, artifact saving). It is library code and file I/O. The classifier is an opaque `Classifier` value, and the contamination probability is a parameter of `Assess`.
- Console I/O:
  - prompts, error messages and the "continue? [S/N]" loop are not modelled;
  - input lines are a parameter;
  - running out of input yields `None`, where the program would keep prompting;
  - the `except Exception` retry branch of `get_user_input` cannot fire on already-read lines.
- The printed percentage rounding (`:.2f`) and all IEEE float behaviour. Values are exact reals, so `float()` rounding and `* 100` rounding are not modelled. This changes the range checks at their endpoints: the program accepts "14.0000000000000001" for pH, because `float()` rounds it to 14.0, while the model refuses it and reads the next line.
- Python regex details beyond the stripped ASCII input the only caller passes: `\d` matching non-ASCII digits, and `$` matching before a trailing newline.
- The int/float distinction of the default constants (`10` versus `0.1`). Every default is a real.
- `curva_roc` (the ROC sweep, AUC and `predict_proba`), the heat-map and report rendering, logging, and `main.py`: these are display, library float work or a menu loop.
- Labels outside {0, 1}. The metric entry points reject them (`NotBinary`). scikit-learn would size the matrix to the labels present, and `precision_score` would raise on multiclass input without an `average` argument.
- EvaluationCache.Predict: the fitted classifier is opaque, so of scikit-learn's input checks only the two that the cached test table can fail are modelled: a table without rows and a row of the wrong width.
- Loading failures are abstract. Each load either yields its artifact or carries some error, and the error kinds of pandas and joblib are not distinguished.
- Sanitizer.Validate: its own contract only says that an accepted value implies a non-empty range. The inclusive-endpoint and empty-range behaviour is stated by `ValidateEndpoints` and `ValidateEmptyRange`.
- RiskPolicy.Advisory: its contract states the number of lines. The exact text is the function's definition, and `AdvisoryDeterminesTier` states that it differs per tier.
