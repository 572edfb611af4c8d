/** Failure-carrying results shared by the input path and the evaluator. */
module Outcomes {

  datatype Option<+T> = None | Some(value: T)

  /** The artifacts the evaluator reads from disk, in the order it reads them. */
  datatype Artifact = TrainedModel | TestFeatures | TestLabels

  /** The exceptions the modelled code raises or lets propagate. */
  datatype Error =
    | InvalidFormat                      // sanitize_input: the text is not a decimal literal
    | ArtifactUnreadable(which: Artifact) // joblib.load / pd.read_csv failed
    | FeatureCountMismatch               // predict called on rows of the wrong width
    | NoSamples                          // predict called on a table without rows
    | CacheNotLoaded                     // a metric read a cache field that is still None
    | InconsistentLengths                // label and prediction sequences differ in length
    | NotBinary                          // a label outside {0, 1}
    | ClassCountMismatch                 // classification_report saw fewer classes than target names

  datatype Result<+T> = Ok(value: T) | Err(error: Error)

  /** The outcome of a call that returns nothing but may raise. */
  datatype Outcome = Pass | Fail(error: Error)
}
