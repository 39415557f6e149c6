# Churn API record bookkeeping, in Dafny

This project models the bookkeeping core of the customer-churn prediction
service: what its route handlers read and write in the database, and the
checks they make first. The database is an abstract in-memory store with one
table per entity. Each table is a sequence of rows carrying store-assigned,
strictly increasing ids (`Tables`). The classifier, the feature transform,
password hashing, JWT encoding, the MLflow registry and the Azure blob store
are not modelled. Each of them is a function passed in as a parameter or held
in a datatype field, so every property below holds whatever those
collaborators do.

The model has these parts:

- **Entities.**
  - `Models` covers the `src` tree's tables.
  - `ApiModels` covers the `churnPredict_api` tree: integer ids, a required
    email, and no uniqueness on metadata.
  - `Database` holds the store (`Store`, with snapshot value `Db`). It also
    holds the invariant the handlers keep (`DbValid`) and the full set of
    declared constraints (`SchemaConstraints`). The store does not enforce
    those constraints.
- **Prediction routes** (`PredictionRoutes`).
  - A prediction commits three rows in turn: the prediction, its registry
    link and the request log.
  - list, get and delete by id.
- **Account rules.**
  - self-registration (`UserRoutes`, `ApiAuth`);
  - admin creation behind the `role` gate (`AdminRoutes`);
  - the start-up admin bootstrap with its session (`AdminBootstrap`).
- **Listings, feedback and model registration** (`FeedbackRoutes`, `Gates`).
  The listings sit behind two different role checks.
- **The artifact cache** `ModelArtifacts` (`ModelLoader`).
- **The column steps of `preprocess_input`** (`Frames`, `Pipeline`), applied to
  the one-row frame the service builds, mutated in place as pandas does.

Handlers that write are methods on the store. Each is specified by a pure
outcome function of the previous snapshot, and the properties are proved
about that function. Read-only handlers are methods without a `modifies`
clause, so they cannot write.

`src/controllers/routes/prediction.py` holds an unresolved merge. The model
follows the `HEAD` side, which the running service uses, and adds the `main`
side's explicit failure when the registry row is missing. On the `HEAD` side
that case would fail on `model_record.id` with a 500 as well.

## Model

| member | source | states |
|---|---|---|
| Tables.Insert | src/controllers/routes/prediction.py:135-137 | an insert keeps every earlier row, appends one row carrying the next id, and keeps ids increasing |
| Tables.RemoveAt | src/controllers/routes/prediction.py:283-284 | a delete keeps the row order and the id counter, and no remaining row carries the removed id |
| Tables.IndexOf | src/controllers/routes/prediction.py:261 | `session.get`: it finds the row with that primary key, or establishes that no row has it |
| Tables.FirstWhere | src/controllers/routes/prediction.py:141-146 | `.first()` of a filtered select: the first row satisfying the filter, or none at all |
| Models.NewUser | src/models/model.py:13-25 | the given username, email, hash and role are set; role defaults to USER, is_active to True, the other optional columns to None |
| Models.FindUsername | src/controllers/routes/users.py:96 | the lookup by username finds a row with that name, or proves no row has it |
| Models.FreshUsernameKeepsUnique | src/models/model.py:17 | appending a user whose name is absent keeps usernames unique |
| Models.UniqueUsernameCount | src/models/model.py:17 | under unique usernames, a name occurs at most once, and exactly once when present |
| Database.EmptyDb | src/models/model.py:13-104 | the empty store satisfies every declared uniqueness and foreign-key constraint |
| Gates.RoleNames | src/controllers/routes/feedback.py:32 | `[ur.role.name for ur in roles]`: same length, element-wise names |
| Gates.RolesGate | src/controllers/routes/feedback.py:32-37 | passes iff the caller's `roles` names include "admin"; otherwise 403 "Admin access required", or 500 when the caller has no `roles` attribute |
| Gates.RoleGate | src/controllers/routes/feedback.py:186-190 | passes iff the `role` column is ADMIN; otherwise 403 "Access forbidden: Admins only" |
| Gates.GatesDisagree | src/controllers/routes/feedback.py:32-37 | a stored ADMIN passes the `role` gate but not the `roles` gate, and a USER whose role links name "admin" the reverse |
| PredictionRoutes.FindRegistered | src/controllers/routes/prediction.py:141-146 | the registry lookup is the first row matching both the artifact's name and its version exactly |
| PredictionRoutes.LogContext | src/controllers/routes/prediction.py:184-185 | no request gives None for both log fields; a request logs its client host and user-agent; a request without a client raises |
| PredictionRoutes.PredictOutcome | src/controllers/routes/prediction.py:41-197 | not loaded gives 500 with nothing written. Otherwise the prediction is committed first. A missing registry row gives 500 "ML model record not found in DB" with the prediction kept and no metadata or log. A request without a client gives 500 after the metadata. Success appends one row of each kind: the prediction and log point at the new id and the caller, and the metadata points at the matched registry row. The response echoes the stored label and probability, the username, the new id and the artifact version. Users, registry and feedback are never changed |
| PredictionRoutes.PredictKeepsValid | src/controllers/routes/prediction.py:162-168 | every path of a prediction keeps the store invariant, including one metadata row per prediction |
| PredictionRoutes.MissingModelKeepsPrediction | src/controllers/routes/prediction.py:135-158 | when no registry row matches the loaded model's name and version, the request fails with 500 "ML model record not found in DB" while the new prediction row stays committed, with no metadata and no log row |
| PredictionRoutes.PredictChurn | src/controllers/routes/prediction.py:34-197 | the three successive commits leave the store and response of `PredictOutcome` |
| PredictionRoutes.ListPredictions | src/controllers/routes/prediction.py:237 | every prediction row, of every owner, in table order |
| PredictionRoutes.GetPrediction | src/controllers/routes/prediction.py:261-264 | succeeds iff a row has that id and returns that row; otherwise 404 "Prediction not found" |
| PredictionRoutes.DeleteOutcome | src/controllers/routes/prediction.py:268-284 | an absent id gives 404 and no change. A present id removes exactly that prediction (every other row stays) and answers 204. Metadata, logs, feedback and the other tables are untouched, and validity is kept |
| PredictionRoutes.DeletePrediction | src/controllers/routes/prediction.py:268-284 | the delete on the store leaves what `DeleteOutcome` states |
| PredictionRoutes.DeleteTwiceIsNotFound | src/controllers/routes/prediction.py:279-284 | after a delete the id is absent, and deleting it again is a 404 that changes nothing |
| PredictionRoutes.DeleteOrphansMetadata | src/models/model.py:71-72 | deleting a prediction that has a metadata row leaves a dangling reference |
| FeedbackRoutes.GetMe | src/controllers/routes/feedback.py:16-19 | the caller's own id and columns, unchanged |
| FeedbackRoutes.ListUsersAsWritten | src/controllers/routes/feedback.py:32-40 | the reply is always an error: the `roles` gate's error when it refuses, otherwise a 500 from `select(User)` on the request schema `User`, not the users table |
| FeedbackRoutes.ListUsersIntended | src/controllers/routes/feedback.py:23-41 | as evidently intended: the full users table iff the `roles` gate passes, else the gate's error |
| FeedbackRoutes.AdminCannotListUsers | src/controllers/routes/feedback.py:32-40 | every caller the gate admits gets the 500 where the intended reply is the users table |
| FeedbackRoutes.ListUsers | src/controllers/routes/feedback.py:23-41 | the handler replies exactly as `ListUsersAsWritten` states, so it never returns users |
| FeedbackRoutes.ListFeedback | src/controllers/routes/feedback.py:74-93 | the full feedback table iff the `roles` gate passes, else the gate's error |
| FeedbackRoutes.ListModels | src/controllers/routes/feedback.py:98-117 | the full registry table iff the `roles` gate passes, else the gate's error |
| FeedbackRoutes.ListLogs | src/controllers/routes/feedback.py:178-192 | the full log table iff the caller's `role` is ADMIN, else 403 "Access forbidden: Admins only" |
| FeedbackRoutes.FeedbackOutcome | src/controllers/routes/feedback.py:46-69 | always succeeds and appends exactly one feedback row. The row has the next id, the caller as owner, and the body's prediction id, flag and comment. No other table changes and validity is kept |
| FeedbackRoutes.CreateFeedback | src/controllers/routes/feedback.py:46-69 | the insert on the store leaves what `FeedbackOutcome` states |
| FeedbackRoutes.FeedbackMayDangle | src/controllers/routes/feedback.py:57-67 | feedback naming a non-existent prediction is stored, breaking the foreign key |
| FeedbackRoutes.ParseVersions | src/controllers/routes/feedback.py:148 | `int()` of every version in order: all parse exactly when every literal does, with the values in order; otherwise the first literal that fails to parse, which is the one `int()` raises on |
| FeedbackRoutes.MaxOf | src/controllers/routes/feedback.py:148 | `max` is an element and bounds every element |
| FeedbackRoutes.ModelOutcome | src/controllers/routes/feedback.py:123-175 | every failure is a 400 that writes nothing. The cases are: a registry error; no versions, with the re-wrapped "No MLflow model found" detail; a non-integer version; a failed load. The failure details are stated case by case: the registry's own message, the re-wrapped "No MLflow model found" text, the ValueError text for the first bad literal, and the load error's text. Conversely, a non-empty list of integer versions whose maximum loads always succeeds and stores that maximum. Success appends exactly one new registry row with the input's name and description. Its stored version parses back to the maximum upstream version, and that maximum is what was loaded. Earlier rows are never updated |
| FeedbackRoutes.CreateModel | src/controllers/routes/feedback.py:123-175 | the handler on the store leaves what `ModelOutcome` states, with no caller and no gate |
| FeedbackRoutes.RegisteringTwiceDuplicates | src/models/model.py:58-60 | registering twice against the same registry state stores two rows with the same name and version |
| IntText.ParseInt | src/controllers/routes/feedback.py:148 | on ASCII text with no surrounding whitespace and no underscores, `int()` succeeds exactly on a digit string, optionally after one '+' or '-' with at least one digit following. The value is the decimal value of the digits, negated after '-' |
| IntText.IntToString | src/controllers/routes/feedback.py:168 | `str()` of an integer is canonical: digits only for n >= 0, a leading '0' only for 0, and '-' then digits with no leading zero for n < 0 |
| IntText.IntRoundTrip | src/controllers/routes/feedback.py:168 | parsing `str(n)` gives back `n` |
| UserRoutes.RegisterOutcome | src/controllers/routes/users.py:95-108 | fails with 400 "Username already taken" iff the name exists, with no change. Otherwise it appends exactly one user with the given name and email, the hash of the password and role USER, and keeps validity |
| UserRoutes.Register | src/controllers/routes/users.py:95-108 | the handler on the store leaves what `RegisterOutcome` states |
| UserRoutes.RegisterAllowsDuplicateEmail | src/controllers/routes/users.py:96 | only the username is checked: an email already on file is accepted and breaks email uniqueness |
| UserRoutes.Login | src/controllers/routes/users.py:114-124 | succeeds iff the named user exists and the password verifies; otherwise 401 "Invalid username or password". The token encodes subject = username and a 30-minute lifetime, with type "bearer". Read-only |
| AdminRoutes.CreateAdminOutcome | src/controllers/routes/admin.py:10-38 | a non-ADMIN caller gets 403 before any lookup, even for a taken name. A taken username gives 400 "Username or email already exists" with no change. Otherwise exactly one ADMIN user is appended with the given name and email, the 201 response carries the message and the username, and validity is kept |
| AdminRoutes.CreateAdminUser | src/controllers/routes/admin.py:10-38 | the handler on the store leaves what `CreateAdminOutcome` states |
| AdminRoutes.CreateAdminAllowsDuplicateEmail | src/controllers/routes/admin.py:21-22 | the existence check ignores the email: a taken email is inserted again |
| AdminBootstrap.ConfiguredAdmin | src/utils/create_admin_user.py:48-53 | the configured username and email, the hash of the configured password, role ADMIN |
| AdminBootstrap.BootstrapOutcome | src/utils/create_admin_user.py:10-74 | a missing or empty setting raises EnvironmentError with no change. An existing username is a no-op. Otherwise a successful commit appends exactly the configured admin, and a failed one is rolled back with no change. Validity is kept |
| AdminBootstrap.BootstrapIsIdempotent | src/utils/create_admin_user.py:39-45 | after a run that created or found the admin, a second run finds it and changes nothing, and the name occurs exactly once |
| AdminBootstrap.Session.Commit | src/utils/create_admin_user.py:55-56 | a commit inserts what was added, or raises and inserts nothing |
| AdminBootstrap.CreateDefaultAdmin | src/utils/create_admin_user.py:10-74 | the store ends as `BootstrapOutcome` states. A session is opened exactly when the settings are complete, and it is closed, with nothing pending, on every path |
| ApiModels.NewApiUser | churnPredict_api/src/models/model.py:48-53 | the given username, email and hash; role defaults to USER |
| ApiModels.FindApiUsername | churnPredict_api/src/controllers/routes/auth.py:19 | the lookup by username finds a row with that name, or proves no row has it |
| ApiModels.EmptyApiDb | churnPredict_api/src/models/model.py:48-53 | the empty store meets this schema's unique username and email |
| ApiModels.SecondMetadataAllowed | churnPredict_api/src/models/model.py:91 | a second metadata row for the same prediction violates nothing here, while the `src` schema's constraint would be broken |
| ApiModels.DuplicateRegistryAllowed | churnPredict_api/src/models/model.py:81-82 | two registry rows with the same name and version violate nothing |
| ApiAuth.ApiRegisterOutcome | churnPredict_api/src/controllers/routes/auth.py:17-31 | fails with 400 "Username already taken" iff the name exists, with no change. Otherwise it appends exactly one user with the given name, email and password hash and role USER, and keeps usernames unique |
| ApiAuth.Register | churnPredict_api/src/controllers/routes/auth.py:17-31 | the handler on the store leaves what `ApiRegisterOutcome` states |
| ApiAuth.ApiRegisterBreaksEmailUniqueness | churnPredict_api/src/models/model.py:51 | an email already on file is accepted by registration and breaks the schema's unique email |
| ApiAuth.Login | churnPredict_api/src/controllers/routes/auth.py:36-47 | succeeds iff the user exists and the password verifies, else 401. The token has subject = username, a 30-minute lifetime and type "bearer". Read-only |
| ModelLoader.GetEnv | src/loaders/model_loader.py:25-36 | a set variable wins, an unset one falls back to the default |
| ModelLoader.PlannedDownloads | src/loaders/model_loader.py:25-39 | model first, then feature transform, each from its environment path or the fixed default |
| ModelLoader.LoadArtifacts | src/loaders/model_loader.py:18-44 | a loaded cache is a no-op. Otherwise, when either field is unset, both are reloaded: the downloads are a prefix of model-then-fe, and both complete before any field is assigned. Each error is stated with its condition: a missing connection-string or container setting, before any download; an unavailable model blob after one download, or fe blob after two; a model file that fails to unpickle; an fe file that fails to load, in which case `model` is already set. Success needs both settings and both blobs, and sets `model` to the unpickled model file and `fe` to the loaded fe file. When both local paths coincide, the model file holds the fe bytes. `fe` changes only on success. The served name and version never change |
| ModelLoader.LoadIsIdempotent | src/loaders/model_loader.py:19-20 | after a successful load, loading again does nothing |
| ModelLoader.SharedLocalPathReadsFeBytes | src/loaders/model_loader.py:38-42 | with equal local paths the model is read from the overwritten file |
| ModelLoader.ModelArtifacts.Load | src/loaders/model_loader.py:18-44 | the class fields end as `LoadArtifacts` states, with the downloads performed and the error raised |
| Frames.Assign | src/ml/pipeline.py:7 | column assignment: the column holds the value, an existing column keeps its place, a new one goes last, and other cells are unchanged |
| Frames.Without | src/ml/pipeline.py:8 | exactly the labels not dropped, still distinct |
| Frames.WithoutKeepsOrder | src/ml/pipeline.py:8 | the labels that survive a drop keep their original relative order |
| Frames.Drop | src/ml/pipeline.py:27 | the remaining labels are `Without` of the old ones, so they keep their order. Exactly the columns not dropped remain, in names and in cells, with their values |
| Pipeline.AddCells | src/ml/pipeline.py:7 | two ints add to an int; the sum fails exactly when one operand is a string and the other is not |
| Pipeline.DeriveTotalCalls | src/ml/pipeline.py:7-8 | succeeds iff both call columns exist and add. TotalCalls is then their sum, both source columns are gone, and every other column keeps its value, with no new column besides TotalCalls. Each raise names its cause: KeyError for the first missing call column, TypeError otherwise |
| Pipeline.BinaryCode | src/ml/pipeline.py:19-22 | "Yes" maps to 1 and "No" to 0, and any other value has no code |
| Pipeline.EncodeBinary | src/ml/pipeline.py:20-22 | the loop keeps the column order and a well-formed frame. Its values are stated by `EncodeBinaryCodes` on success and by `EncodeBinaryStops` on failure |
| Pipeline.EncodeBinaryCodes | src/ml/pipeline.py:18-22 | the loop succeeds iff every present binary column is "Yes"/"No". Those columns then hold 1/0, and all other columns are untouched |
| Pipeline.EncodeBinaryStops | src/ml/pipeline.py:20-22 | a failed loop raises the int cast of the first present binary column with no code. The present columns before it are already coded 1/0 in the frame, and every other column is untouched |
| Pipeline.OneHotDropFirst | src/ml/pipeline.py:26 | on one row, a string column yields no dummy column and a numeric column passes through |
| Pipeline.Concat | src/ml/pipeline.py:28 | labels are the two frames' labels in order, and each value comes from its frame |
| Pipeline.Reindex | src/ml/pipeline.py:31 | exactly the training columns in order: present ones keep their value, missing ones read 0 |
| Pipeline.OneHotStep | src/ml/pipeline.py:25-28 | raises iff a low-cardinality column is missing, with the frame untouched. When all four are missing, the KeyError is "None of [...]" over the whole request. Otherwise it lists the missing labels in request order, and only those. On success the four labels leave the caller's frame, which otherwise keeps its columns in order with their values, and those are carried into the result. The result holds exactly the input's columns, minus the string-valued low-cardinality ones |
| Pipeline.OneHotAndAlign | src/ml/pipeline.py:25-31 | succeeds iff every low-cardinality column is present; otherwise the KeyError lists exactly the missing ones and the caller's frame is unchanged. The result has exactly the training columns, and each holds its input value. The exceptions are a missing column and a string-valued low-cardinality column, which read 0. The caller's frame keeps exactly its other columns, with their values |
| Pipeline.EncodedCells | src/ml/pipeline.py:18-22 | the binary loop succeeds iff every present binary column holds "Yes" or "No". It keeps the set of columns and leaves non-binary columns alone; on success each column holds `EncodedCell` of its input |
| Pipeline.EncodeAndAlign | src/ml/pipeline.py:18-31 | succeeds iff every present binary column holds "Yes" or "No" and every low-cardinality column is present. Each training column then holds the input's value, binary columns coded 1/0; missing and string low-cardinality columns read 0. The caller's frame then holds exactly the input's other columns, coded. On a raise it is the binary loop's frame, and the error is the loop's or the KeyError listing exactly the missing low-cardinality labels |
| Pipeline.Preprocess | src/ml/pipeline.py:5-31 | succeeds iff both call columns exist and add, every present binary column holds "Yes" or "No", and every low-cardinality column is present. The result then has exactly the training columns in order, each tied to the input frame. TotalCalls holds the sum of the call columns. A binary column holds its 1/0 code. Any other present column keeps its input value. A missing column, a dropped call column, or a string low-cardinality column reads 0, which covers every one-hot label on one row. The caller's own object is stated too. On success it has lost the two call columns and the four labels, holds TotalCalls as the sum, and keeps every other input column with its binary code applied. If the derivation raises, it is unchanged. On a later raise it is the binary loop's frame, with the columns before a failing cast already coded. The caller's kept columns carry their value into the result |
| Pipeline.DeriveTotalCallsInPlace | src/ml/pipeline.py:7-8 | the caller's frame becomes `DeriveTotalCalls`'s frame, or stays unchanged with the raised error |
| Pipeline.EncodeBinaryInPlace | src/ml/pipeline.py:20-22 | the in-place loop leaves exactly `EncodeBinary`'s frame and failure |
| Pipeline.OneHotInPlace | src/ml/pipeline.py:25-31 | the caller's frame loses the four columns in place, and the returned frame is `OneHotAndAlign`'s |
| Pipeline.PreprocessInput | src/ml/pipeline.py:5-31 | the caller's object ends as `Preprocess` leaves it, and the return value is its result |

## Left out

- Machine learning is opaque: `fe.transform`, `predict`, `predict_proba`, MLflow's registry and `load_model`, and `df.to_json()` are parameters.
- Imputation and scaling in `preprocess_input`, and the `main` side of the merge in `predict_churn`, are not modelled: they fit scikit-learn objects on floating-point data.
- The `HEAD` side of `predict_churn` does not call `preprocess_input`; the pipeline is modelled on its own.
- Hashing, verifying and JWT encoding are parameters. The caller's identity is given, so `get_current_user` and token decoding are not modelled.
- The Azure download and file writes are modelled only as the `fetch` parameter and a map from local path to bytes. Network and file-system failures collapse into one error per download.
- Timestamps (`created_at`, `updated_at`, `timestamp`) and the token's absolute expiry time are left out. Only the 30-minute delta is kept.
- User ids are uuid4 values in the `src` schema; here they are store-assigned numbers, which are just as unique.
- The store enforces no constraint. A database server would reject the duplicate emails, dangling feedback and orphaned metadata that the lemmas exhibit, with an IntegrityError (a 500). The model states the constraint that breaks instead.
- `ModelArtifacts.model_name` and `version` are read by `predict_churn` but never defined by the cache class. They are modelled as fixed fields of the cache; in the source, reading them raises.
- `current_user.roles` is not a column of the `users` table. The model gives a caller an optional `roles` list, and an absent one makes the listing gates raise (500).
- The `UserCreate` schema of the `churnPredict_api` tree is not part of this model; its email is taken to be a required string, as that tree's table declares.
- IntText.ParseInt: models `int()` on ASCII text only. It accepts an optional sign and decimal digits. Python also accepts surrounding whitespace, underscores between digits and non-ASCII decimal digits; those strings are not modelled.
- FeedbackRoutes.ModelOutcome: the text of a registry or load exception is a parameter, and version literals parse as `IntText.ParseInt` states. The ValueError text quotes the literal with single quotes, as Python's `repr` does for strings without quotes.
- Frames: the frame has one row, the only shape the service builds. Duplicate column labels and pandas dtypes beyond int, float and string are not modelled.
- PredictionRoutes.PredictOutcome: a `Request` is always present when FastAPI calls the handler; the absent case is kept because the source tests for it.
- Row order: listings and `.first()` lookups are modelled in table (insertion) order, while the SQL SELECTs behind them carry no ORDER BY and promise no order. The contracts that name "the first" row are about that fixed order.
- FastAPI's `response_model` shaping and validation are not modelled: listings return whole rows. In the source, `List[UserOut]` drops `hashed_password`, and a reply that fails the response schema is a 500. For example, `FeedbackRead.user_id: int` rejects the `src` schema's uuid user ids.
- Concurrency between requests and transaction isolation: each handler runs alone, as one sequential method on the store.
- The logging and `print` calls are left out.

## Findings

| source | as written | input that shows it | evidently intended | confidence | as-written member | corrected member |
|---|---|---|---|---|---|---|
| src/controllers/routes/feedback.py:40 | `select(User)` uses the `User` imported at line 4 from `schemas.schema`, a pydantic model rather than the users table, so the select cannot be built and the request ends in a 500 | any caller whose `roles` include "admin" | `select` of the users table, listing every user | high, from reading the imports; not executed | FeedbackRoutes.ListUsersAsWritten, FeedbackRoutes.AdminCannotListUsers | FeedbackRoutes.ListUsersIntended |
