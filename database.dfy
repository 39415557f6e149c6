/**
 * The abstract store behind the `src` routes: one table per entity of
 * src/models/model.py. The store itself enforces nothing; the schema's
 * declared constraints are predicates, and the handlers' outcomes say which
 * of them they keep.
 */
module Database {
  import opened Http
  import opened Tables
  import opened Models

  datatype Db = Db(
    users: Table<User>,
    predictions: Table<Prediction>,
    mlmodels: Table<MLModel>,
    metadata: Table<PredictionMetadata>,
    logs: Table<PredictionLog>,
    feedbacks: Table<Feedback>)

  /** What a handler leaves behind: the store after its commits, and its response or error. */
  datatype Outcome<T> = Outcome(db: Db, result: Result<T>)

  predicate TablesWellFormed(db: Db) {
    && WellFormed(db.users) && WellFormed(db.predictions) && WellFormed(db.mlmodels)
    && WellFormed(db.metadata) && WellFormed(db.logs) && WellFormed(db.feedbacks)
  }

  /**
   * The invariant the handlers keep: well-formed tables, unique usernames,
   * at most one metadata row per prediction, and metadata only for
   * prediction ids the store has already handed out.
   */
  predicate DbValid(db: Db) {
    && TablesWellFormed(db)
    && UsernamesUnique(db.users.rows)
    && MetadataPerPredictionUnique(db.metadata.rows)
    && (forall k :: 0 <= k < |db.metadata.rows| ==> db.metadata.rows[k].fields.predictionId < db.predictions.nextId)
  }

  /** Every foreign key of src/models/model.py names an existing row. */
  predicate ReferencesResolve(db: Db) {
    && (forall k :: 0 <= k < |db.predictions.rows| ==> HasId(db.users, db.predictions.rows[k].fields.userId))
    && (forall k :: 0 <= k < |db.metadata.rows| ==>
          HasId(db.predictions, db.metadata.rows[k].fields.predictionId)
          && HasId(db.mlmodels, db.metadata.rows[k].fields.modelId))
    && (forall k :: 0 <= k < |db.feedbacks.rows| ==>
          HasId(db.predictions, db.feedbacks.rows[k].fields.predictionId)
          && HasId(db.users, db.feedbacks.rows[k].fields.userId))
    && (forall k :: 0 <= k < |db.logs.rows| ==>
          HasId(db.predictions, db.logs.rows[k].fields.predictionId)
          && HasId(db.users, db.logs.rows[k].fields.userId))
  }

  /** Everything the schema declares, which a database server would enforce. */
  predicate SchemaConstraints(db: Db) {
    && DbValid(db)
    && EmailsUnique(db.users.rows)
    && PhonesUnique(db.users.rows)
    && ReferencesResolve(db)
  }

  function EmptyDb(): (db: Db)
    ensures SchemaConstraints(db)
    ensures |db.users.rows| == 0 && |db.predictions.rows| == 0 && |db.mlmodels.rows| == 0
    ensures |db.metadata.rows| == 0 && |db.logs.rows| == 0 && |db.feedbacks.rows| == 0
  {
    Db(Empty(), Empty(), Empty(), Empty(), Empty(), Empty())
  }

  /** The store a session works on; each handler commits into these fields. */
  class Store {
    var users: Table<User>
    var predictions: Table<Prediction>
    var mlmodels: Table<MLModel>
    var metadata: Table<PredictionMetadata>
    var logs: Table<PredictionLog>
    var feedbacks: Table<Feedback>

    function Snapshot(): Db
      reads this
    {
      Db(users, predictions, mlmodels, metadata, logs, feedbacks)
    }

    constructor ()
      ensures Snapshot() == EmptyDb()
    {
      users := Empty();
      predictions := Empty();
      mlmodels := Empty();
      metadata := Empty();
      logs := Empty();
      feedbacks := Empty();
    }
  }
}
