/** The fraud service's process-wide artifacts: loading them at startup,
    the all-loaded gate, the health report and featurization. */
module Artifacts {
  import opened Wrappers

  /** One value of a raw transaction record. */
  datatype Field = Number(x: real) | Text(s: string) | Flag(b: bool)

  /** A raw transaction or feedback payload: named fields. */
  type RawRecord = map<string, Field>

  /** The fitted column transformer: `None` stands for a record it raises
      on (a missing column or a value of the wrong kind). */
  type Preprocessor = RawRecord -> Option<seq<real>>

  /** The fitted PCA projection. */
  type Projection = seq<real> -> seq<real>

  /** The fitted classifier: its class label for a latent vector (truthy
      when non-zero) and its class probabilities. */
  datatype Classifier = Classifier(predict: seq<real> -> int, predictProba: seq<real> -> seq<real>)

  /** The `artifacts` dictionary: `None` until loaded. */
  datatype Artifacts = Artifacts(
    model: Option<Classifier>,
    pca: Option<Projection>,
    preprocessor: Option<Preprocessor>)

  /** The dictionary before startup. */
  const Unloaded: Artifacts := Artifacts(None, None, None)

  /** `all(artifacts.values())`. */
  predicate AllLoaded(a: Artifacts)
    ensures AllLoaded(a) ==> a.model.Some? && a.pca.Some? && a.preprocessor.Some?
    // one missing artifact is enough to close the gate
    ensures a.model.None? || a.pca.None? || a.preprocessor.None? ==> !AllLoaded(a)
  {
    a.model.Some? && a.pca.Some? && a.preprocessor.Some?
  }

  /** Why a featurization fails. */
  datatype FeatureError = NotLoaded | TransformRaised

  /** `load_artifacts`: the three files are unpickled in order (model, pca,
      preprocessor), each argument being the object its file yields or
      `None` when opening or unpickling raises. The first failure stops the
      loading; the service starts anyway. */
  function LoadArtifacts(
    modelFile: Option<Classifier>,
    pcaFile: Option<Projection>,
    preprocessorFile: Option<Preprocessor>): (a: Artifacts)
    ensures AllLoaded(a) <==> modelFile.Some? && pcaFile.Some? && preprocessorFile.Some?
    // a failed load leaves it and every later artifact unset
    ensures modelFile.None? ==> a == Unloaded
    ensures pcaFile.None? ==> a.pca.None? && a.preprocessor.None?
    // artifacts read before the first failure stay loaded
    ensures modelFile.Some? ==> a.model == modelFile
    ensures modelFile.Some? && pcaFile.Some? ==> a.pca == pcaFile && a.preprocessor == preprocessorFile
    // what is set is what was read
    ensures a.model.Some? ==> modelFile.Some? && a.model.value == modelFile.value
    ensures a.pca.Some? ==> pcaFile.Some? && a.pca.value == pcaFile.value
    ensures a.preprocessor.Some? ==> preprocessorFile.Some? && a.preprocessor.value == preprocessorFile.value
  {
    if modelFile.None? then Unloaded
    else if pcaFile.None? then Artifacts(modelFile, None, None)
    else Artifacts(modelFile, pcaFile, preprocessorFile)
  }

  /** The body of `GET /health`. */
  datatype Health = Health(status: string, artifactsLoaded: bool)

  function HealthCheck(a: Artifacts): (h: Health)
    ensures h.status == "ok"
    ensures h.artifactsLoaded <==> a.model.Some? && a.pca.Some? && a.preprocessor.Some?
  {
    Health("ok", AllLoaded(a))
  }

  /** The health report after startup says "loaded" exactly when every
      artifact file could be read. */
  lemma HealthAfterStartup(
    modelFile: Option<Classifier>,
    pcaFile: Option<Projection>,
    preprocessorFile: Option<Preprocessor>)
    ensures HealthCheck(LoadArtifacts(modelFile, pcaFile, preprocessorFile)).artifactsLoaded <==>
            modelFile.Some? && pcaFile.Some? && preprocessorFile.Some?
  {
  }

  /** `process_features`: raw record to latent vector. */
  function ProcessFeatures(a: Artifacts, data: RawRecord): (r: Result<seq<real>, FeatureError>)
    ensures !AllLoaded(a) ==> r == Failure(NotLoaded)
    ensures AllLoaded(a) && a.preprocessor.value(data).None? ==> r == Failure(TransformRaised)
    ensures r.Success? <==> AllLoaded(a) && a.preprocessor.value(data).Some?
    ensures r.Success? ==> r.value == a.pca.value(a.preprocessor.value(data).value)
  {
    if !AllLoaded(a) then Failure(NotLoaded)
    else
      match a.preprocessor.value(data)
      case None => Failure(TransformRaised)
      case Some(x) => Success(a.pca.value(x))
  }
}
