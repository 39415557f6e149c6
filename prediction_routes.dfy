/**
 * The `/predict` routes of src/controllers/routes/prediction.py: the churn
 * prediction, which commits a Prediction, then links it to the registry
 * entry of the loaded model, then logs the request; and list, get and delete
 * of stored predictions.
 */
module PredictionRoutes {
  import opened Http
  import opened Tables
  import opened Models
  import opened Database
  import Frames
  import opened ModelLoader

  /** The parts of the HTTP request the log reads; `clientHost` is `None` when `request.client` is. */
  datatype Request = Request(clientHost: Option<string>, userAgent: Option<string>)

  /** The dict `predict_churn` returns. */
  datatype PredictResponse = PredictResponse(
    user: string,
    prediction: int,
    probability: real,
    predictionId: nat,
    modelVersion: string)

  const ModelRecordMissing: HttpError := HttpError(ServerError, "ML model record not found in DB")
  const PredictionNotFound: HttpError := HttpError(NotFound, "Prediction not found")

  /** `select(MLModel).where(name == ..., version == ...).first()`, as a row index. */
  function FindRegistered(models: seq<Row<MLModel>>, name: string, version: string): (r: Option<nat>)
    ensures r.Some? ==> r.value < |models| && models[r.value].fields.name == name && models[r.value].fields.version == version
    ensures r.Some? ==> forall j :: 0 <= j < r.value ==> !(models[j].fields.name == name && models[j].fields.version == version)
    ensures r.None? <==> forall j :: 0 <= j < |models| ==> !(models[j].fields.name == name && models[j].fields.version == version)
  {
    FirstWhere(models, (m: Row<MLModel>) => m.fields.name == name && m.fields.version == version)
  }

  /**
   * `request.client.host if request else None` and the user-agent header
   * likewise; `None` when `request.client` is None and reading `.host` raises.
   */
  function LogContext(request: Option<Request>): (r: Option<(Option<string>, Option<string>)>)
    ensures request.None? ==> r == Some((None, None))
    ensures request.Some? ==> (r.Some? <==> request.value.clientHost.Some?)
    ensures r.Some? && request.Some? ==> r.value.0 == request.value.clientHost && r.value.1 == request.value.userAgent
  {
    match request
    case None => Some((None, None))
    case Some(req) => if req.clientHost.None? then None else Some((req.clientHost, req.userAgent))
  }

  /**
   * `predict_churn`. The feature transform and the classifier run before any
   * write; an unloaded cache makes them raise. Each of the three rows is its
   * own commit, so a failure keeps what was committed before it.
   */
  function PredictOutcome(db: Db, caller: Caller, art: ArtifactState, input: Frames.Frame,
                          toJson: Frames.Frame -> string, request: Option<Request>): (o: Outcome<PredictResponse>)
    ensures !IsLoaded(art) ==> o == Outcome(db, Err(InternalError))
    ensures o.db.users == db.users && o.db.mlmodels == db.mlmodels && o.db.feedbacks == db.feedbacks
    ensures IsLoaded(art) ==>
      var x := art.fe.value.transform(input);
      o.db.predictions == Insert(db.predictions,
        Prediction(caller.id, toJson(input), art.model.value.predict(x), art.model.value.probaPositive(x)))
    ensures o.result == Err(ModelRecordMissing) <==>
      IsLoaded(art) && FindRegistered(db.mlmodels.rows, art.modelName, art.version).None?
    ensures o.result == Err(ModelRecordMissing) ==> o.db.metadata == db.metadata && o.db.logs == db.logs
    ensures o.result.Ok? <==>
      IsLoaded(art) && FindRegistered(db.mlmodels.rows, art.modelName, art.version).Some? && LogContext(request).Some?
    ensures IsLoaded(art) && FindRegistered(db.mlmodels.rows, art.modelName, art.version).Some? && LogContext(request).None? ==>
      o.result == Err(InternalError) && |o.db.metadata.rows| == |db.metadata.rows| + 1 && o.db.logs == db.logs
    ensures o.result.Ok? ==>
      var pid := o.result.value.predictionId;
      var model := FindRegistered(db.mlmodels.rows, art.modelName, art.version).value;
      && pid == db.predictions.nextId
      && o.db.predictions.rows[|db.predictions.rows|].id == pid
      && o.db.predictions.rows[|db.predictions.rows|].fields.userId == caller.id
      && o.db.predictions.rows[|db.predictions.rows|].fields.prediction == o.result.value.prediction
      && o.db.predictions.rows[|db.predictions.rows|].fields.probability == o.result.value.probability
      && o.db.metadata == Insert(db.metadata, PredictionMetadata(pid, db.mlmodels.rows[model].id))
      && o.db.logs == Insert(db.logs, PredictionLog(pid, caller.id, LogContext(request).value.0, LogContext(request).value.1))
      && o.result.value.user == caller.user.username
      && o.result.value.modelVersion == art.version
  {
    if !IsLoaded(art) then Outcome(db, Err(InternalError))
    else
      var x := art.fe.value.transform(input);
      var predicted := art.model.value.predict(x);
      var probability := art.model.value.probaPositive(x);
      var pid := db.predictions.nextId;
      var db1 := db.(predictions := Insert(db.predictions, Prediction(caller.id, toJson(input), predicted, probability)));
      match FindRegistered(db.mlmodels.rows, art.modelName, art.version)
      case None => Outcome(db1, Err(ModelRecordMissing))
      case Some(k) =>
        var db2 := db1.(metadata := Insert(db.metadata, PredictionMetadata(pid, db.mlmodels.rows[k].id)));
        match LogContext(request)
        case None => Outcome(db2, Err(InternalError))
        case Some(context) =>
          var db3 := db2.(logs := Insert(db.logs, PredictionLog(pid, caller.id, context.0, context.1)));
          Outcome(db3, Ok(PredictResponse(caller.user.username, predicted, probability, pid, art.version)))
  }

  /**
   * The metadata row is keyed by the prediction just created, whose id no
   * metadata row can hold yet, so a prediction keeps the store valid on
   * every path.
   */
  lemma PredictKeepsValid(db: Db, caller: Caller, art: ArtifactState, input: Frames.Frame,
                          toJson: Frames.Frame -> string, request: Option<Request>)
    requires DbValid(db)
    ensures DbValid(PredictOutcome(db, caller, art, input, toJson, request).db)
  {
    var o := PredictOutcome(db, caller, art, input, toJson, request);
    if IsLoaded(art) && |o.db.metadata.rows| != |db.metadata.rows| {
      var pid := db.predictions.nextId;
      var k := FindRegistered(db.mlmodels.rows, art.modelName, art.version).value;
      assert o.db.metadata == Insert(db.metadata, PredictionMetadata(pid, db.mlmodels.rows[k].id));
      var m := o.db.metadata.rows;
      forall i, j | 0 <= i < j < |m|
        ensures m[i].fields.predictionId != m[j].fields.predictionId
      {
        assert m[i] == db.metadata.rows[i];
        if j < |db.metadata.rows| {
          assert m[j] == db.metadata.rows[j];
        }
      }
    }
  }

  /** A missing registry row fails the request but the prediction stays committed. */
  lemma MissingModelKeepsPrediction(db: Db, caller: Caller, art: ArtifactState, input: Frames.Frame,
                                    toJson: Frames.Frame -> string, request: Option<Request>)
    requires IsLoaded(art)
    requires FindRegistered(db.mlmodels.rows, art.modelName, art.version).None?
    ensures var o := PredictOutcome(db, caller, art, input, toJson, request);
      && o.result == Err(ModelRecordMissing)
      && |o.db.predictions.rows| == |db.predictions.rows| + 1
      && o.db.predictions.rows[|db.predictions.rows|].id == db.predictions.nextId
      && o.db.metadata == db.metadata && o.db.logs == db.logs
  {
  }

  /** `predict_churn` on the store: three successive commits. */
  method PredictChurn(store: Store, caller: Caller, artifacts: ModelArtifacts, input: Frames.Frame,
                      toJson: Frames.Frame -> string, request: Option<Request>) returns (r: Result<PredictResponse>)
    modifies store
    ensures var o := PredictOutcome(old(store.Snapshot()), caller, artifacts.State(), input, toJson, request);
      store.Snapshot() == o.db && r == o.result
  {
    if artifacts.fe.None? || artifacts.model.None? {
      return Err(InternalError);
    }
    var x := artifacts.fe.value.transform(input);
    var predicted := artifacts.model.value.predict(x);
    var probability := artifacts.model.value.probaPositive(x);

    var predictionId := store.predictions.nextId;
    store.predictions := Insert(store.predictions, Prediction(caller.id, toJson(input), predicted, probability));

    var found := FindRegistered(store.mlmodels.rows, artifacts.modelName, artifacts.version);
    if found.None? {
      return Err(ModelRecordMissing);
    }
    store.metadata := Insert(store.metadata, PredictionMetadata(predictionId, store.mlmodels.rows[found.value].id));

    var context := LogContext(request);
    if context.None? {
      return Err(InternalError);
    }
    store.logs := Insert(store.logs, PredictionLog(predictionId, caller.id, context.value.0, context.value.1));
    r := Ok(PredictResponse(caller.user.username, predicted, probability, predictionId, artifacts.version));
  }

  /** `list_predictions`: every stored prediction, whoever made it, in table order. */
  method ListPredictions(store: Store) returns (rows: seq<Row<Prediction>>)
    ensures |rows| == |store.predictions.rows|
    ensures forall k :: 0 <= k < |rows| ==> rows[k] == store.predictions.rows[k]
  {
    rows := store.predictions.rows;
  }

  /** `get_prediction`: `session.get` by primary key, 404 when absent. */
  method GetPrediction(store: Store, predictionId: int) returns (r: Result<Row<Prediction>>)
    ensures r.Ok? <==> HasId(store.predictions, predictionId)
    ensures r.Ok? ==> r.value in store.predictions.rows && r.value.id == predictionId
    ensures r.Err? ==> r.error == PredictionNotFound
  {
    var k := IndexOf(store.predictions, predictionId);
    if k.None? {
      return Err(PredictionNotFound);
    }
    r := Ok(store.predictions.rows[k.value]);
  }

  /**
   * `delete_prediction`: 404 when absent; otherwise only that prediction row
   * goes (204), and the metadata, logs and feedback pointing at it stay.
   */
  function DeleteOutcome(db: Db, predictionId: int): (o: Outcome<()>)
    ensures !HasId(db.predictions, predictionId) ==> o == Outcome(db, Err(PredictionNotFound))
    ensures HasId(db.predictions, predictionId) ==> o.result == Ok(())
    ensures o.db == db.(predictions := o.db.predictions)
    ensures o.db.predictions.nextId == db.predictions.nextId
    ensures HasId(db.predictions, predictionId) ==> |o.db.predictions.rows| == |db.predictions.rows| - 1
    ensures WellFormed(db.predictions) ==>
      forall row :: row in o.db.predictions.rows <==> row in db.predictions.rows && row.id != predictionId
    ensures DbValid(db) ==> DbValid(o.db)
  {
    match IndexOf(db.predictions, predictionId)
    case None => Outcome(db, Err(PredictionNotFound))
    case Some(k) =>
      var after := RemoveAt(db.predictions, k);
      assert WellFormed(db.predictions) ==> forall row :: row in after.rows <==> row in db.predictions.rows && row.id != predictionId by {
        if WellFormed(db.predictions) {
          forall row | row in db.predictions.rows && row.id != predictionId
            ensures row in after.rows
          {
            var i :| 0 <= i < |db.predictions.rows| && db.predictions.rows[i] == row;
            if i < k { assert after.rows[i] == row; } else { assert after.rows[i - 1] == row; }
          }
        }
      }
      Outcome(db.(predictions := after), Ok(()))
  }

  method DeletePrediction(store: Store, predictionId: int) returns (r: Result<()>)
    modifies store
    ensures var o := DeleteOutcome(old(store.Snapshot()), predictionId);
      store.Snapshot() == o.db && r == o.result
  {
    var k := IndexOf(store.predictions, predictionId);
    if k.None? {
      return Err(PredictionNotFound);
    }
    store.predictions := RemoveAt(store.predictions, k.value);
    r := Ok(());
  }

  /** After a delete the id is gone for good: a second delete is a 404 that changes nothing. */
  lemma DeleteTwiceIsNotFound(db: Db, predictionId: int)
    requires DbValid(db)
    ensures var once := DeleteOutcome(db, predictionId).db;
      !HasId(once.predictions, predictionId)
      && DeleteOutcome(once, predictionId) == Outcome(once, Err(PredictionNotFound))
  {
  }

  /** Deleting a prediction that has a metadata row leaves that row pointing at nothing. */
  lemma DeleteOrphansMetadata(db: Db, predictionId: int, k: nat)
    requires DbValid(db)
    requires k < |db.metadata.rows| && db.metadata.rows[k].fields.predictionId == predictionId
    ensures !ReferencesResolve(DeleteOutcome(db, predictionId).db)
  {
    DeleteTwiceIsNotFound(db, predictionId);
  }
}
