/** The evaluator's process-wide cache: init() loads the trained model, the test features
    and the test labels once, predicts the test labels, and keeps all four in module
    globals behind an `_model is None` guard. The files on disk are a parameter. */
module EvaluationCache {
  import opened Outcomes
  import opened Metrics

  type Row = seq<real>

  /** A fitted classifier as the evaluator uses it: the number of features it was fitted
      on and the label it predicts for a row. */
  datatype Classifier = Classifier(width: nat, classify: Row -> int)

  /** model.predict(X): one label per row, or an error when the table has no rows (a
      features file with only its header) or a row does not have the number of features
      the model was fitted on. */
  function Predict(model: Classifier, rows: seq<Row>): (r: Result<seq<int>>)
    ensures r.Ok? ==> |r.value| == |rows|
    ensures r.Ok? ==> forall i :: 0 <= i < |rows| ==> r.value[i] == model.classify(rows[i])
    ensures r.Err? <==> |rows| == 0 || exists i :: 0 <= i < |rows| && |rows[i]| != model.width
  {
    if |rows| == 0 then Err(NoSamples)
    else if forall i :: 0 <= i < |rows| ==> |rows[i]| == model.width then
      Ok(seq(|rows|, i requires 0 <= i < |rows| => model.classify(rows[i])))
    else
      Err(FeatureCountMismatch)
  }

  /** What the three loads find: joblib.load of the model, pd.read_csv of the test
      features and of the test labels; each yields its artifact or raises. */
  datatype ArtifactFiles = ArtifactFiles(model: Result<Classifier>, xTest: Result<seq<Row>>, yTest: Result<seq<int>>)

  /** `_model`, `_X_test`, `_y_test` and `_y_pred`; None is Python's None. */
  datatype Cache = Cache(model: Option<Classifier>, xTest: Option<seq<Row>>, yTest: Option<seq<int>>, yPred: Option<seq<int>>)

  const Empty: Cache := Cache(None, None, None, None)

  /** The cache after one call of init(), and whether that call raised. */
  datatype Step = Step(cache: Cache, outcome: Outcome)

  /** init(): nothing happens once `_model` is set; otherwise the four assignments run in
      order and the first failure is re-raised, leaving the fields assigned before it.
      So `_model` is set afterwards exactly when it was before or its load succeeded,
      and a call that loads and passes fills all four fields. */
  function InitStep(c: Cache, files: ArtifactFiles): (r: Step)
    ensures r.cache.model.Some? <==> c.model.Some? || files.model.Ok?
    ensures r.outcome.Fail? ==> c.model.None? && r.cache.yPred == c.yPred
    ensures c.model.None? && r.outcome.Pass? ==>
      r.cache.xTest.Some? && r.cache.yTest.Some? && r.cache.yPred.Some?
  {
    if c.model.Some? then Step(c, Pass)
    else if files.model.Err? then Step(c, Fail(files.model.error))
    else
      var withModel := c.(model := Some(files.model.value));
      if files.xTest.Err? then Step(withModel, Fail(files.xTest.error))
      else
        var withX := withModel.(xTest := Some(files.xTest.value));
        if files.yTest.Err? then Step(withX, Fail(files.yTest.error))
        else
          var withY := withX.(yTest := Some(files.yTest.value));
          var predicted := Predict(files.model.value, files.xTest.value);
          if predicted.Err? then Step(withY, Fail(predicted.error))
          else Step(withY.(yPred := Some(predicted.value)), Pass)
  }

  /** The shape of every cache init() can produce from the empty one: the fields are set
      in order, and a cached prediction is the cached model's on the cached features. */
  predicate Consistent(c: Cache)
  {
    (c.model.None? ==> c.xTest.None?)
    && (c.xTest.None? ==> c.yTest.None?)
    && (c.yTest.None? ==> c.yPred.None?)
    && (c.yPred.Some? ==> Predict(c.model.value, c.xTest.value) == Ok(c.yPred.value))
  }

  /** What a metric reads: both label sequences, present, of one length and binary. The
      check order is scikit-learn's: lengths before label values. */
  function CachedLabels(c: Cache): (r: Result<(seq<int>, seq<int>)>)
    ensures r.Ok? ==> |r.value.0| == |r.value.1| && IsBinary(r.value.0) && IsBinary(r.value.1)
    ensures r.Ok? ==> c.yTest == Some(r.value.0) && c.yPred == Some(r.value.1)
    ensures r.Err? ==> r.error in {CacheNotLoaded, InconsistentLengths, NotBinary}
  {
    if c.yTest.None? || c.yPred.None? then Err(CacheNotLoaded)
    else if |c.yTest.value| != |c.yPred.value| then Err(InconsistentLengths)
    else if !IsBinary(c.yTest.value) || !IsBinary(c.yPred.value) then Err(NotBinary)
    else Ok((c.yTest.value, c.yPred.value))
  }

  function ScoresOf(c: Cache): Result<Scores>
  {
    var labels := CachedLabels(c);
    if labels.Err? then Err(labels.error) else Ok(PrecisionRecallF1(labels.value.0, labels.value.1))
  }

  function MatrixOf(c: Cache): Result<seq<seq<nat>>>
  {
    var labels := CachedLabels(c);
    if labels.Err? then Err(labels.error) else Ok(ConfusionMatrix(labels.value.0, labels.value.1))
  }

  function ReportOf(c: Cache): Result<Report>
  {
    var labels := CachedLabels(c);
    if labels.Err? then Err(labels.error) else ClassificationReport(labels.value.0, labels.value.1)
  }

  /** A metric entry point's result: init()'s exception if it raised, else the metric of
      the cache init() left. */
  function AfterInit<T>(step: Step, metric: Result<T>): Result<T>
  {
    if step.outcome.Fail? then Err(step.outcome.error) else metric
  }

  class Evaluator {
    var model: Option<Classifier>
    var xTest: Option<seq<Row>>
    var yTest: Option<seq<int>>
    var yPred: Option<seq<int>>

    function Snapshot(): Cache
      reads this
    {
      Cache(model, xTest, yTest, yPred)
    }

    /** Module import: the four globals start as None. */
    constructor ()
      ensures Snapshot() == Empty
    {
      model, xTest, yTest, yPred := None, None, None, None;
    }

    method Init(files: ArtifactFiles) returns (outcome: Outcome)
      modifies this
      ensures Step(Snapshot(), outcome) == InitStep(old(Snapshot()), files)
      ensures old(model).Some? ==> Snapshot() == old(Snapshot()) && outcome == Pass
      ensures Consistent(old(Snapshot())) ==> Consistent(Snapshot())
    {
      if Consistent(Snapshot()) {
        InitPreservesConsistent(Snapshot(), files);
      }
      outcome := Pass;
      if model.None? {
        if files.model.Err? {
          return Fail(files.model.error);
        }
        model := Some(files.model.value);
        if files.xTest.Err? {
          return Fail(files.xTest.error);
        }
        xTest := Some(files.xTest.value);
        if files.yTest.Err? {
          return Fail(files.yTest.error);
        }
        yTest := Some(files.yTest.value);
        var predicted := Predict(model.value, xTest.value);
        if predicted.Err? {
          return Fail(predicted.error);
        }
        yPred := Some(predicted.value);
      }
    }

    /** precisao_recall_f1: init(), then the scores of the cached labels. */
    method ReportScores(files: ArtifactFiles) returns (r: Result<Scores>)
      modifies this
      ensures Snapshot() == InitStep(old(Snapshot()), files).cache
      ensures r == AfterInit(InitStep(old(Snapshot()), files), ScoresOf(Snapshot()))
      ensures old(model).Some? ==> Snapshot() == old(Snapshot())
    {
      var outcome := Init(files);
      if outcome.Fail? {
        return Err(outcome.error);
      }
      r := ScoresOf(Snapshot());
    }

    /** matriz_confusao: init(), then the confusion matrix of the cached labels. */
    method ReportConfusionMatrix(files: ArtifactFiles) returns (r: Result<seq<seq<nat>>>)
      modifies this
      ensures Snapshot() == InitStep(old(Snapshot()), files).cache
      ensures r == AfterInit(InitStep(old(Snapshot()), files), MatrixOf(Snapshot()))
      ensures old(model).Some? ==> Snapshot() == old(Snapshot())
    {
      var outcome := Init(files);
      if outcome.Fail? {
        return Err(outcome.error);
      }
      r := MatrixOf(Snapshot());
    }

    /** relatorio_classificacao: init(), then the classification report of the cached
        labels. */
    method ReportClassification(files: ArtifactFiles) returns (r: Result<Report>)
      modifies this
      ensures Snapshot() == InitStep(old(Snapshot()), files).cache
      ensures r == AfterInit(InitStep(old(Snapshot()), files), ReportOf(Snapshot()))
      ensures old(model).Some? ==> Snapshot() == old(Snapshot())
    {
      var outcome := Init(files);
      if outcome.Fail? {
        return Err(outcome.error);
      }
      r := ReportOf(Snapshot());
    }
  }

  /** Once `_model` is set, init() changes none of the four fields and raises nothing. */
  lemma InitIdempotent(c: Cache, files: ArtifactFiles)
    requires c.model.Some?
    ensures InitStep(c, files) == Step(c, Pass)
  {
  }

  /** After any call whose model load succeeded, a second call changes nothing. */
  lemma InitTwice(c: Cache, first: ArtifactFiles, second: ArtifactFiles)
    requires c.model.Some? || first.model.Ok?
    ensures InitStep(InitStep(c, first).cache, second) == Step(InitStep(c, first).cache, Pass)
  {
  }

  /** From the empty cache, init() completes exactly when every load and the prediction
      succeed; then all four fields are set, with one prediction per test row. */
  lemma InitCompletes(files: ArtifactFiles)
    ensures InitStep(Empty, files).outcome.Pass? <==>
      (files.model.Ok? && files.xTest.Ok? && files.yTest.Ok?
       && Predict(files.model.value, files.xTest.value).Ok?)
    ensures InitStep(Empty, files).outcome.Pass? ==>
      InitStep(Empty, files).cache == Cache(Some(files.model.value), Some(files.xTest.value),
        Some(files.yTest.value), Some(Predict(files.model.value, files.xTest.value).value))
      && |InitStep(Empty, files).cache.yPred.value| == |files.xTest.value|
  {
  }

  /** A load failure is re-raised unchanged: the error of the first failing step is the
      error the caller sees. */
  lemma InitReraises(files: ArtifactFiles)
    ensures files.model.Err? ==> InitStep(Empty, files).outcome == Fail(files.model.error)
    ensures files.model.Ok? && files.xTest.Err? ==> InitStep(Empty, files).outcome == Fail(files.xTest.error)
    ensures files.model.Ok? && files.xTest.Ok? && files.yTest.Err?
      ==> InitStep(Empty, files).outcome == Fail(files.yTest.error)
  {
  }

  /** init() keeps the cache consistent, so every reachable cache is. */
  lemma InitPreservesConsistent(c: Cache, files: ArtifactFiles)
    requires Consistent(c)
    ensures Consistent(InitStep(c, files).cache)
  {
  }

  /** The hazard of the guard: when the model loads but a later step fails, `_model` is
      set and the cache is stuck. Every later init() skips loading whatever the files then
      hold, the labels stay unset and every metric fails. */
  lemma PartialFailureSticks(first: ArtifactFiles, later: ArtifactFiles)
    requires first.model.Ok? && InitStep(Empty, first).outcome.Fail?
    ensures InitStep(Empty, first).cache.model.Some?
    ensures InitStep(Empty, first).cache.yPred.None?
    ensures InitStep(InitStep(Empty, first).cache, later) == Step(InitStep(Empty, first).cache, Pass)
    ensures ScoresOf(InitStep(Empty, first).cache) == Err(CacheNotLoaded)
    ensures MatrixOf(InitStep(Empty, first).cache) == Err(CacheNotLoaded)
    ensures ReportOf(InitStep(Empty, first).cache) == Err(CacheNotLoaded)
  {
  }

  /** Retrying does work when the failure was the first load: the cache is left empty,
      so the next call behaves as a first call. */
  lemma RetryAfterModelLoadFailure(first: ArtifactFiles, later: ArtifactFiles)
    requires first.model.Err?
    ensures InitStep(Empty, first).cache == Empty
    ensures InitStep(InitStep(Empty, first).cache, later) == InitStep(Empty, later)
  {
  }

  /** Once init() has completed, the metrics are exactly those of the cached test labels
      and the cached model's predictions. */
  lemma MetricsReadCache(files: ArtifactFiles)
    requires InitStep(Empty, files).outcome.Pass?
    requires |files.yTest.value| == |files.xTest.value|
    requires IsBinary(files.yTest.value)
    requires IsBinary(Predict(files.model.value, files.xTest.value).value)
    ensures ScoresOf(InitStep(Empty, files).cache)
      == Ok(PrecisionRecallF1(files.yTest.value, Predict(files.model.value, files.xTest.value).value))
  {
    InitCompletes(files);
  }
}
