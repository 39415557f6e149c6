/**
 * The artifact cache `ModelArtifacts` (src/loaders/model_loader.py): a
 * class-level pair of fields, `model` and `fe`, filled once from two blobs
 * of the remote store. The classifier and the feature transform are opaque:
 * each is a value holding the functions the service calls on it.
 */
module ModelLoader {
  import opened Http
  import opened Frames

  type Bytes = seq<bv8>

  type Features = seq<real>

  /** The fitted feature-engineering object: only `transform` is ever called. */
  datatype FeatureEngineer = FeatureEngineer(transform: Frame -> Features)

  /** The classifier: `predict(X)[0]` and `predict_proba(X)[0, 1]` on a one-row matrix. */
  datatype Classifier = Classifier(predict: Features -> int, probaPositive: Features -> real)

  /**
   * What prediction requests read. `modelName` and `version` identify the
   * served model in the registry; the source reads them from the class but
   * never assigns them, so they are fixed when the cache is made.
   */
  datatype ArtifactState = ArtifactState(
    model: Option<Classifier>,
    fe: Option<FeatureEngineer>,
    modelName: string,
    version: string)

  const ModelBlobVar: string := "MODEL_BLOB_PATH"
  const FeBlobVar: string := "FE_BLOB_PATH"
  const LocalModelVar: string := "LOCAL_MODEL_PATH"
  const LocalFeVar: string := "LOCAL_FE_PATH"
  const DefaultModelBlob: string := "mlflow/1/models/m-1294491f521b479d96686a0db03633ee/artifacts/model.pkl"
  const DefaultFeBlob: string := "mlflow/1/77419d51036c49b4940e3eadf9f048a3/artifacts/mlflow-artifacts/feature_engineer.joblib"
  const DefaultLocalModel: string := "/tmp/model.pkl"
  const DefaultLocalFe: string := "/tmp/feature_engineering.joblib"
  /** Read with `os.environ[...]` by the blob loader's constructor (src/loaders/blob_loader.py). */
  const ConnectionStringVar: string := "AZURE_STORAGE_CONNECTION_STRING"
  const ContainerVar: string := "AZURE_STORAGE_CONTAINER_NAME"

  /** `os.getenv(key, default)`: a set variable wins, even when empty. */
  function GetEnv(env: map<string, string>, key: string, default: string): (v: string)
    ensures key in env ==> v == env[key]
    ensures key !in env ==> v == default
  {
    if key in env then env[key] else default
  }

  /** One `loader.download(blob_path, local_path)` call. */
  datatype Download = Download(blobPath: string, localPath: string)

  /** The remote store and the two deserializers (`pickle.load`, `joblib.load`); `None` is an exception. */
  datatype Collaborators = Collaborators(
    fetch: string -> Option<Bytes>,
    unpickle: Bytes -> Option<Classifier>,
    joblibLoad: Bytes -> Option<FeatureEngineer>)

  datatype LoadError =
    | MissingSetting(variable: string)
    | ArtifactUnavailable(blobPath: string)
    | ArtifactCorrupt(localPath: string)

  /** The cache after `load()`, the downloads it attempted in order, and what it raised. */
  datatype LoadOutcome = LoadOutcome(state: ArtifactState, downloads: seq<Download>, error: Option<LoadError>)

  /** `if cls.model and cls.fe`. */
  predicate IsLoaded(s: ArtifactState) {
    s.model.Some? && s.fe.Some?
  }

  /** The two downloads `load()` performs, model first. */
  function PlannedDownloads(env: map<string, string>): (ds: seq<Download>)
    ensures |ds| == 2
    ensures ds[0].blobPath == GetEnv(env, ModelBlobVar, DefaultModelBlob)
    ensures ds[0].localPath == GetEnv(env, LocalModelVar, DefaultLocalModel)
    ensures ds[1].blobPath == GetEnv(env, FeBlobVar, DefaultFeBlob)
    ensures ds[1].localPath == GetEnv(env, LocalFeVar, DefaultLocalFe)
  {
    [Download(GetEnv(env, ModelBlobVar, DefaultModelBlob), GetEnv(env, LocalModelVar, DefaultLocalModel)),
     Download(GetEnv(env, FeBlobVar, DefaultFeBlob), GetEnv(env, LocalFeVar, DefaultLocalFe))]
  }

  /**
   * `ModelArtifacts.load()`. Both files are written to scratch storage before
   * either is read back (a shared local path means the second download
   * overwrites the first); `model` is assigned before `fe` is read.
   */
  function LoadArtifacts(s: ArtifactState, env: map<string, string>, io: Collaborators): (o: LoadOutcome)
    ensures IsLoaded(s) ==> o == LoadOutcome(s, [], None)
    ensures !IsLoaded(s) && o.error.None? ==> IsLoaded(o.state) && o.downloads == PlannedDownloads(env)
    ensures o.downloads <= PlannedDownloads(env)
    ensures o.state.modelName == s.modelName && o.state.version == s.version
    ensures o.state.fe != s.fe ==> o.error.None? && |o.downloads| == 2
    ensures o.state.model != s.model ==> |o.downloads| == 2
    ensures o.error.Some? ==> o.state.fe == s.fe
    ensures !IsLoaded(s) && ConnectionStringVar !in env ==>
              o == LoadOutcome(s, [], Some(MissingSetting(ConnectionStringVar)))
    ensures !IsLoaded(s) && ConnectionStringVar in env && ContainerVar !in env ==>
              o == LoadOutcome(s, [], Some(MissingSetting(ContainerVar)))
    ensures !IsLoaded(s) && o.error.None? ==>
              && ConnectionStringVar in env && ContainerVar in env
              && io.fetch(PlannedDownloads(env)[0].blobPath).Some?
              && io.fetch(PlannedDownloads(env)[1].blobPath).Some?
    ensures !IsLoaded(s) && ConnectionStringVar in env && ContainerVar in env ==>
              var ds := PlannedDownloads(env);
              && (io.fetch(ds[0].blobPath).None? ==>
                    o == LoadOutcome(s, [ds[0]], Some(ArtifactUnavailable(ds[0].blobPath))))
              && (io.fetch(ds[0].blobPath).Some? && io.fetch(ds[1].blobPath).None? ==>
                    o == LoadOutcome(s, ds, Some(ArtifactUnavailable(ds[1].blobPath))))
    // Both files are written before either is read: with one shared local
    // path the model is read from the feature transform's bytes.
    ensures !IsLoaded(s) && ConnectionStringVar in env && ContainerVar in env ==>
              var ds := PlannedDownloads(env);
              io.fetch(ds[0].blobPath).Some? && io.fetch(ds[1].blobPath).Some? ==>
              var feFile := io.fetch(ds[1].blobPath).value;
              var modelFile := if ds[0].localPath == ds[1].localPath then feFile else io.fetch(ds[0].blobPath).value;
              && (io.unpickle(modelFile).None? ==>
                    o == LoadOutcome(s, ds, Some(ArtifactCorrupt(ds[0].localPath))))
              && (io.unpickle(modelFile).Some? && io.joblibLoad(feFile).None? ==>
                    o == LoadOutcome(s.(model := io.unpickle(modelFile)), ds, Some(ArtifactCorrupt(ds[1].localPath))))
              && (io.unpickle(modelFile).Some? && io.joblibLoad(feFile).Some? ==>
                    o == LoadOutcome(s.(model := io.unpickle(modelFile), fe := io.joblibLoad(feFile)), ds, None))
  {
    var planned := PlannedDownloads(env);
    if IsLoaded(s) then LoadOutcome(s, [], None)
    else if ConnectionStringVar !in env then LoadOutcome(s, [], Some(MissingSetting(ConnectionStringVar)))
    else if ContainerVar !in env then LoadOutcome(s, [], Some(MissingSetting(ContainerVar)))
    else
      var modelDl, feDl := planned[0], planned[1];
      match io.fetch(modelDl.blobPath)
      case None => LoadOutcome(s, [modelDl], Some(ArtifactUnavailable(modelDl.blobPath)))
      case Some(modelBytes) =>
        match io.fetch(feDl.blobPath)
        case None => LoadOutcome(s, planned, Some(ArtifactUnavailable(feDl.blobPath)))
        case Some(feBytes) =>
          var files := map[modelDl.localPath := modelBytes][feDl.localPath := feBytes];
          match io.unpickle(files[modelDl.localPath])
          case None => LoadOutcome(s, planned, Some(ArtifactCorrupt(modelDl.localPath)))
          case Some(m) =>
            match io.joblibLoad(files[feDl.localPath])
            case None => LoadOutcome(s.(model := Some(m)), planned, Some(ArtifactCorrupt(feDl.localPath)))
            case Some(fe) => LoadOutcome(s.(model := Some(m), fe := Some(fe)), planned, None)
  }

  /** A load that succeeded leaves nothing for a second one to do. */
  lemma LoadIsIdempotent(s: ArtifactState, env: map<string, string>, io: Collaborators)
    requires LoadArtifacts(s, env, io).error.None?
    ensures var once := LoadArtifacts(s, env, io).state;
      LoadArtifacts(once, env, io) == LoadOutcome(once, [], None)
  {
  }

  /**
   * With both local paths set to the same file, the second download
   * overwrites the first, and the model is unpickled from the feature
   * transform's bytes.
   */
  lemma SharedLocalPathReadsFeBytes(s: ArtifactState, env: map<string, string>, io: Collaborators, feBytes: Bytes)
    requires !IsLoaded(s) && ConnectionStringVar in env && ContainerVar in env
    requires PlannedDownloads(env)[0].localPath == PlannedDownloads(env)[1].localPath
    requires io.fetch(PlannedDownloads(env)[0].blobPath).Some?
    requires io.fetch(PlannedDownloads(env)[1].blobPath) == Some(feBytes)
    requires io.unpickle(feBytes).None?
    ensures LoadArtifacts(s, env, io).error == Some(ArtifactCorrupt(PlannedDownloads(env)[0].localPath))
  {
  }

  /** The process-wide cache. */
  class ModelArtifacts {
    var model: Option<Classifier>
    var fe: Option<FeatureEngineer>
    const modelName: string
    const version: string

    function State(): ArtifactState
      reads this
    {
      ArtifactState(model, fe, modelName, version)
    }

    /** `model = None`, `fe = None` at class definition. */
    constructor (modelName: string, version: string)
      ensures State() == ArtifactState(None, None, modelName, version)
    {
      this.model := None;
      this.fe := None;
      this.modelName := modelName;
      this.version := version;
    }

    /** `load()`: downloads, writes the files, then assigns `model` and `fe` in that order. */
    method Load(env: map<string, string>, io: Collaborators) returns (downloads: seq<Download>, error: Option<LoadError>)
      modifies this
      ensures LoadOutcome(State(), downloads, error) == LoadArtifacts(old(State()), env, io)
    {
      if model.Some? && fe.Some? {
        return [], None;
      }
      if ConnectionStringVar !in env {
        return [], Some(MissingSetting(ConnectionStringVar));
      }
      if ContainerVar !in env {
        return [], Some(MissingSetting(ContainerVar));
      }
      var modelBlob := GetEnv(env, ModelBlobVar, DefaultModelBlob);
      var feBlob := GetEnv(env, FeBlobVar, DefaultFeBlob);
      var localModel := GetEnv(env, LocalModelVar, DefaultLocalModel);
      var localFe := GetEnv(env, LocalFeVar, DefaultLocalFe);

      var files: map<string, Bytes> := map[];
      downloads := [Download(modelBlob, localModel)];
      var fetched := io.fetch(modelBlob);
      if fetched.None? {
        return downloads, Some(ArtifactUnavailable(modelBlob));
      }
      files := files[localModel := fetched.value];
      downloads := downloads + [Download(feBlob, localFe)];
      fetched := io.fetch(feBlob);
      if fetched.None? {
        return downloads, Some(ArtifactUnavailable(feBlob));
      }
      files := files[localFe := fetched.value];

      var loadedModel := io.unpickle(files[localModel]);
      if loadedModel.None? {
        return downloads, Some(ArtifactCorrupt(localModel));
      }
      model := loadedModel;
      var loadedFe := io.joblibLoad(files[localFe]);
      if loadedFe.None? {
        return downloads, Some(ArtifactCorrupt(localFe));
      }
      fe := loadedFe;
      error := None;
    }
  }
}
