/**
 * The `/api` routes of src/controllers/routes/feedback.py: the caller's own
 * profile, the admin listings behind the two role gates, feedback (appended
 * without looking at the prediction it names), and model registration,
 * which records the highest upstream registry version.
 */
module FeedbackRoutes {
  import opened Http
  import opened Tables
  import opened Models
  import opened Database
  import opened Gates
  import opened IntText

  /** `get_me`: the authenticated user as it came in. */
  function GetMe(caller: Caller): (me: Row<User>)
    ensures me.id == caller.id && me.fields == caller.user
  {
    Row(caller.id, caller.user)
  }

  /**
   * `list_users` as written: behind the `roles` gate, `select(User)` names the
   * request schema `User` (a plain model, not a table), so building the
   * select raises and the caller gets a 500 before the session is read.
   */
  function ListUsersAsWritten(caller: Caller): (r: Result<seq<Row<User>>>)
    ensures r.Err?
    ensures RolesGate(caller).Err? ==> r.error == RolesGate(caller).error
    ensures RolesGate(caller).Ok? ==> r.error == InternalError
  {
    match RolesGate(caller)
    case Err(e) => Err(e)
    case Ok(_) => Err(InternalError)
  }

  /** `list_users` as evidently intended: the whole users table, behind the `roles` gate. */
  function ListUsersIntended(users: seq<Row<User>>, caller: Caller): (r: Result<seq<Row<User>>>)
    ensures r.Ok? <==> caller.roles.Some? && HasAdminRoleName(caller.roles.value)
    ensures r.Err? ==> r.error == RolesGate(caller).error
    ensures r.Ok? ==> r.value == users
  {
    match RolesGate(caller)
    case Err(e) => Err(e)
    case Ok(_) => Ok(users)
  }

  /** Every caller the gate admits gets a 500 where the users table was meant to be listed. */
  lemma AdminCannotListUsers(users: seq<Row<User>>, caller: Caller)
    requires caller.roles.Some? && HasAdminRoleName(caller.roles.value)
    ensures ListUsersAsWritten(caller) == Err(InternalError)
    ensures ListUsersIntended(users, caller) == Ok(users)
  {
  }

  /** The `list_users` handler as written: it never lists. */
  method ListUsers(store: Store, caller: Caller) returns (r: Result<seq<Row<User>>>)
    ensures r == ListUsersAsWritten(caller)
  {
    var gate := RolesGate(caller);
    if gate.Err? {
      return Err(gate.error);
    }
    r := Err(InternalError);
  }

  /** `list_feedback`: the whole feedbacks table, behind the `roles` gate. */
  method ListFeedback(store: Store, caller: Caller) returns (r: Result<seq<Row<Feedback>>>)
    ensures r.Ok? <==> caller.roles.Some? && HasAdminRoleName(caller.roles.value)
    ensures r.Err? ==> r.error == RolesGate(caller).error
    ensures r.Ok? ==> r.value == store.feedbacks.rows
  {
    var gate := RolesGate(caller);
    if gate.Err? {
      return Err(gate.error);
    }
    r := Ok(store.feedbacks.rows);
  }

  /** `list_models`: the whole registry table, behind the `roles` gate. */
  method ListModels(store: Store, caller: Caller) returns (r: Result<seq<Row<MLModel>>>)
    ensures r.Ok? <==> caller.roles.Some? && HasAdminRoleName(caller.roles.value)
    ensures r.Err? ==> r.error == RolesGate(caller).error
    ensures r.Ok? ==> r.value == store.mlmodels.rows
  {
    var gate := RolesGate(caller);
    if gate.Err? {
      return Err(gate.error);
    }
    r := Ok(store.mlmodels.rows);
  }

  /** `list_logs`: the whole log table, behind the `role` column gate. */
  method ListLogs(store: Store, caller: Caller) returns (r: Result<seq<Row<PredictionLog>>>)
    ensures r.Ok? <==> caller.user.role == ADMIN
    ensures r.Err? ==> r.error == AdminsOnly
    ensures r.Ok? ==> r.value == store.logs.rows
  {
    var gate := RoleGate(caller);
    if gate.Err? {
      return Err(gate.error);
    }
    r := Ok(store.logs.rows);
  }

  /** The `FeedbackCreate` body. */
  datatype FeedbackCreate = FeedbackCreate(predictionId: int, correct: Option<bool>, comment: Option<string>)

  /** `create_feedback`: one new row owned by the caller, whatever `prediction_id` names. */
  function FeedbackOutcome(db: Db, caller: Caller, input: FeedbackCreate): (o: Outcome<Row<Feedback>>)
    ensures o.result.Ok?
    ensures o.db == db.(feedbacks := o.db.feedbacks)
    ensures |o.db.feedbacks.rows| == |db.feedbacks.rows| + 1
    ensures o.db.feedbacks.rows[..|db.feedbacks.rows|] == db.feedbacks.rows
    ensures o.db.feedbacks.rows[|db.feedbacks.rows|] == o.result.value
    ensures o.result.value.id == db.feedbacks.nextId
    ensures o.result.value.fields == Feedback(input.predictionId, caller.id, input.correct, input.comment)
    ensures DbValid(db) ==> DbValid(o.db)
  {
    var row := Row(db.feedbacks.nextId, Feedback(input.predictionId, caller.id, input.correct, input.comment));
    Outcome(db.(feedbacks := Insert(db.feedbacks, row.fields)), Ok(row))
  }

  method CreateFeedback(store: Store, caller: Caller, input: FeedbackCreate) returns (feedback: Row<Feedback>)
    modifies store
    ensures var o := FeedbackOutcome(old(store.Snapshot()), caller, input);
      store.Snapshot() == o.db && Ok(feedback) == o.result
  {
    feedback := Row(store.feedbacks.nextId, Feedback(input.predictionId, caller.id, input.correct, input.comment));
    store.feedbacks := Insert(store.feedbacks, feedback.fields);
  }

  /** Feedback naming a prediction that does not exist is stored all the same. */
  lemma FeedbackMayDangle(db: Db, caller: Caller, input: FeedbackCreate)
    requires !HasId(db.predictions, input.predictionId)
    ensures !ReferencesResolve(FeedbackOutcome(db, caller, input).db)
  {
    var o := FeedbackOutcome(db, caller, input);
    var k := |db.feedbacks.rows|;
    assert o.db.feedbacks.rows[k].fields.predictionId == input.predictionId;
  }

  /** The `MLModelCreate` body. */
  datatype MLModelCreate = MLModelCreate(name: string, description: Option<string>)

  /** What `get_latest_versions` returned (their `version` strings), or the text of what it raised. */
  datatype RegistryReply = Versions(versions: seq<string>) | RegistryFailed(message: string)

  /** `int(v.version)` over the versions in order: all values, or the first literal `int` refuses. */
  datatype ParsedVersions = AllParsed(values: seq<int>) | BadLiteral(text: string)

  const RetrievalFailed: string := "Error retrieving MLflow model: "
  const LoadFailed: string := "Failed to load MLflow model: "

  /**
   * `str(e)` of the HTTPException raised inside the `try` and caught by its
   * own `except Exception`: status and detail joined by ": ".
   */
  function NoVersionsMessage(name: string): string {
    "400: No MLflow model found for name: " + name
  }

  /** `str(e)` of the ValueError `int()` raises on a non-integer literal. */
  function BadLiteralMessage(text: string): string {
    "invalid literal for int() with base 10: '" + text + "'"
  }

  function ParseVersions(vs: seq<string>): (r: ParsedVersions)
    ensures r.AllParsed? <==> forall i :: 0 <= i < |vs| ==> ParseInt(vs[i]).Some?
    ensures r.AllParsed? ==> |r.values| == |vs| && forall i :: 0 <= i < |vs| ==> ParseInt(vs[i]) == Some(r.values[i])
    ensures r.BadLiteral? ==>
      exists i :: 0 <= i < |vs| && vs[i] == r.text && ParseInt(vs[i]).None? &&
                  forall j :: 0 <= j < i ==> ParseInt(vs[j]).Some?
  {
    if |vs| == 0 then AllParsed([])
    else match ParseInt(vs[0])
      case None => BadLiteral(vs[0])
      case Some(v) =>
        match ParseVersions(vs[1..])
        case BadLiteral(t) =>
          var k :| 0 <= k < |vs[1..]| && vs[1..][k] == t && ParseInt(vs[1..][k]).None? &&
                   forall j :: 0 <= j < k ==> ParseInt(vs[1..][j]).Some?;
          assert vs[k + 1] == t && forall j :: 0 <= j < k + 1 ==> ParseInt(vs[j]).Some?;
          BadLiteral(t)
        case AllParsed(rest) => AllParsed([v] + rest)
  }

  /** `max(...)` of a non-empty sequence. */
  function MaxOf(xs: seq<int>): (m: int)
    requires |xs| > 0
    ensures exists i :: 0 <= i < |xs| && xs[i] == m
    ensures forall i :: 0 <= i < |xs| ==> xs[i] <= m
  {
    if |xs| == 1 then xs[0]
    else
      var rest := MaxOf(xs[1..]);
      if xs[0] >= rest then xs[0] else rest
  }

  /** `f"models:/{name}/{latest_version}"`. */
  function ModelUri(name: string, version: int): string {
    "models:/" + name + "/" + IntToString(version)
  }

  /**
   * `create_model`, with no role gate. `loadModel` is `mlflow.sklearn.load_model`
   * on a URI, returning the text of what it raised. Every failure is a 400
   * and writes nothing; success always appends a new registry row.
   */
  function ModelOutcome(db: Db, input: MLModelCreate, registry: RegistryReply,
                        loadModel: string -> Option<string>): (o: Outcome<Row<MLModel>>)
    ensures o.result.Err? ==> o.db == db && o.result.error.status == BadRequest
    ensures registry.RegistryFailed? ==> o.result == Err(HttpError(BadRequest, RetrievalFailed + registry.message))
    ensures registry.Versions? && |registry.versions| == 0 ==>
      o.result == Err(HttpError(BadRequest, RetrievalFailed + NoVersionsMessage(input.name)))
    ensures registry.Versions? ==>
      forall i :: 0 <= i < |registry.versions| && ParseInt(registry.versions[i]).None? &&
                  (forall j :: 0 <= j < i ==> ParseInt(registry.versions[j]).Some?) ==>
        o.result == Err(HttpError(BadRequest, RetrievalFailed + BadLiteralMessage(registry.versions[i])))
    ensures registry.Versions? && |registry.versions| > 0 && ParseVersions(registry.versions).AllParsed? ==>
      var latest := MaxOf(ParseVersions(registry.versions).values);
      var failure := loadModel(ModelUri(input.name, latest));
      && (failure.Some? ==> o.result == Err(HttpError(BadRequest, LoadFailed + failure.value)))
      && (failure.None? ==> o.result.Ok? && o.result.value.fields.version == IntToString(latest))
    ensures o.result.Ok? ==>
      var vs := registry.versions;
      var stored := ParseInt(o.result.value.fields.version);
      && registry.Versions? && |vs| > 0 && stored.Some?
      && (forall i :: 0 <= i < |vs| ==> ParseInt(vs[i]).Some? && ParseInt(vs[i]).value <= stored.value)
      && (exists i :: 0 <= i < |vs| && ParseInt(vs[i]) == stored)
      && loadModel(ModelUri(input.name, stored.value)).None?
    ensures o.result.Ok? ==>
      && o.db == db.(mlmodels := o.db.mlmodels)
      && |o.db.mlmodels.rows| == |db.mlmodels.rows| + 1
      && o.db.mlmodels.rows[..|db.mlmodels.rows|] == db.mlmodels.rows
      && o.db.mlmodels.rows[|db.mlmodels.rows|] == o.result.value
      && o.result.value.id == db.mlmodels.nextId
      && o.result.value.fields.name == input.name
      && o.result.value.fields.description == input.description
    ensures DbValid(db) ==> DbValid(o.db)
  {
    match registry
    case RegistryFailed(message) => Outcome(db, Err(HttpError(BadRequest, RetrievalFailed + message)))
    case Versions(vs) =>
      if |vs| == 0 then Outcome(db, Err(HttpError(BadRequest, RetrievalFailed + NoVersionsMessage(input.name))))
      else match ParseVersions(vs)
        case BadLiteral(text) => Outcome(db, Err(HttpError(BadRequest, RetrievalFailed + BadLiteralMessage(text))))
        case AllParsed(values) =>
          var latest := MaxOf(values);
          match loadModel(ModelUri(input.name, latest))
          case Some(message) => Outcome(db, Err(HttpError(BadRequest, LoadFailed + message)))
          case None =>
            IntRoundTrip(latest);
            var row := Row(db.mlmodels.nextId, MLModel(input.name, IntToString(latest), input.description));
            Outcome(db.(mlmodels := Insert(db.mlmodels, row.fields)), Ok(row))
  }

  method CreateModel(store: Store, input: MLModelCreate, registry: RegistryReply,
                     loadModel: string -> Option<string>) returns (r: Result<Row<MLModel>>)
    modifies store
    ensures var o := ModelOutcome(old(store.Snapshot()), input, registry, loadModel);
      store.Snapshot() == o.db && r == o.result
  {
    if registry.RegistryFailed? {
      return Err(HttpError(BadRequest, RetrievalFailed + registry.message));
    }
    var vs := registry.versions;
    if |vs| == 0 {
      return Err(HttpError(BadRequest, RetrievalFailed + NoVersionsMessage(input.name)));
    }
    var parsed := ParseVersions(vs);
    if parsed.BadLiteral? {
      return Err(HttpError(BadRequest, RetrievalFailed + BadLiteralMessage(parsed.text)));
    }
    var latest := MaxOf(parsed.values);
    var failure := loadModel(ModelUri(input.name, latest));
    if failure.Some? {
      return Err(HttpError(BadRequest, LoadFailed + failure.value));
    }
    var row := Row(store.mlmodels.nextId, MLModel(input.name, IntToString(latest), input.description));
    store.mlmodels := Insert(store.mlmodels, row.fields);
    r := Ok(row);
  }

  /**
   * Nothing makes (name, version) unique: registering against the same
   * registry state twice leaves two rows with the same name and version.
   */
  lemma RegisteringTwiceDuplicates(db: Db, input: MLModelCreate, registry: RegistryReply,
                                   loadModel: string -> Option<string>)
    requires ModelOutcome(db, input, registry, loadModel).result.Ok?
    ensures var once := ModelOutcome(db, input, registry, loadModel);
      var twice := ModelOutcome(once.db, input, registry, loadModel);
      && twice.result.Ok?
      && once.result.value.fields == twice.result.value.fields
      && once.result.value.id < twice.result.value.id
      && |twice.db.mlmodels.rows| == |db.mlmodels.rows| + 2
  {
  }
}
