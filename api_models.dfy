/**
 * The entities of the `churnPredict_api` tree (churnPredict_api/src/models/model.py).
 * Ids are plain integers; a user has only a username, a required email, a
 * password hash and a role; prediction, registry, feedback and log rows have
 * the same columns as in `Models`, but a prediction may carry any number of
 * metadata rows.
 */
module ApiModels {
  import opened Http
  import opened Tables
  import opened Models

  /** A `user` row of this tree; `role` is the same two-valued enum. */
  datatype ApiUser = ApiUser(username: string, email: string, hashedPassword: string, role: UserRole)

  /** `User(username=..., email=..., hashed_password=...)`: the role takes its default. */
  function NewApiUser(username: string, email: string, hashedPassword: string): (u: ApiUser)
    ensures u.username == username && u.email == email && u.hashedPassword == hashedPassword
    ensures u.role == USER
  {
    ApiUser(username, email, hashedPassword, USER)
  }

  datatype ApiDb = ApiDb(
    users: Table<ApiUser>,
    predictions: Table<Prediction>,
    mlmodels: Table<MLModel>,
    metadata: Table<PredictionMetadata>,
    feedbacks: Table<Feedback>,
    logs: Table<PredictionLog>)

  predicate ApiUsernamesUnique(users: seq<Row<ApiUser>>) {
    forall i, j :: 0 <= i < j < |users| ==> users[i].fields.username != users[j].fields.username
  }

  /** `email` is required and unique, so no two rows share one. */
  predicate ApiEmailsUnique(users: seq<Row<ApiUser>>) {
    forall i, j :: 0 <= i < j < |users| ==> users[i].fields.email != users[j].fields.email
  }

  /** The constraints this schema declares; `prediction_id` on metadata is not among them. */
  predicate ApiSchemaConstraints(db: ApiDb) {
    && WellFormed(db.users) && WellFormed(db.predictions) && WellFormed(db.mlmodels)
    && WellFormed(db.metadata) && WellFormed(db.feedbacks) && WellFormed(db.logs)
    && ApiUsernamesUnique(db.users.rows)
    && ApiEmailsUnique(db.users.rows)
  }

  /** `select(User).where(User.username == name).first()` in this tree. */
  function FindApiUsername(users: seq<Row<ApiUser>>, name: string): (r: Option<nat>)
    ensures r.Some? ==> r.value < |users| && users[r.value].fields.username == name
    ensures r.None? <==> forall k :: 0 <= k < |users| ==> users[k].fields.username != name
  {
    FirstWhere(users, (u: Row<ApiUser>) => u.fields.username == name)
  }

  function EmptyApiDb(): (db: ApiDb)
    ensures ApiSchemaConstraints(db)
    ensures |db.users.rows| == 0 && |db.metadata.rows| == 0
  {
    ApiDb(Empty(), Empty(), Empty(), Empty(), Empty(), Empty())
  }

  /**
   * A second metadata row for a prediction that already has one breaks no
   * declared constraint here, while the `src` schema forbids it.
   */
  lemma SecondMetadataAllowed(db: ApiDb, k: nat)
    requires ApiSchemaConstraints(db)
    requires k < |db.metadata.rows|
    ensures var more := db.(metadata := Insert(db.metadata, db.metadata.rows[k].fields));
      ApiSchemaConstraints(more) && !MetadataPerPredictionUnique(more.metadata.rows)
  {
    var more := Insert(db.metadata, db.metadata.rows[k].fields);
    assert more.rows[k] == db.metadata.rows[k];
    assert more.rows[|db.metadata.rows|].fields.predictionId == db.metadata.rows[k].fields.predictionId;
  }

  /** Registry entries are not unique by (name, version) in either schema. */
  lemma DuplicateRegistryAllowed(db: ApiDb, m: MLModel)
    requires ApiSchemaConstraints(db)
    ensures var twice := db.(mlmodels := Insert(Insert(db.mlmodels, m), m));
      ApiSchemaConstraints(twice)
      && twice.mlmodels.rows[|db.mlmodels.rows|].fields == twice.mlmodels.rows[|db.mlmodels.rows| + 1].fields
  {
  }

  /** The store of the `churnPredict_api` service. */
  class ApiStore {
    var users: Table<ApiUser>
    var predictions: Table<Prediction>
    var mlmodels: Table<MLModel>
    var metadata: Table<PredictionMetadata>
    var feedbacks: Table<Feedback>
    var logs: Table<PredictionLog>

    function Snapshot(): ApiDb
      reads this
    {
      ApiDb(users, predictions, mlmodels, metadata, feedbacks, logs)
    }

    constructor ()
      ensures Snapshot() == EmptyApiDb()
    {
      users := Empty();
      predictions := Empty();
      mlmodels := Empty();
      metadata := Empty();
      feedbacks := Empty();
      logs := Empty();
    }
  }
}
