/**
 * The entities of the `src` tree (src/models/model.py). Every table row is a
 * `Tables.Row` whose `id` the store assigns; the datatypes below are the
 * remaining columns. Timestamps are left out.
 */
module Models {
  import opened Http
  import opened Tables

  datatype UserRole = ADMIN | USER

  /**
   * A `users` row. `id` is a uuid4 in the source, modelled as a store-assigned
   * number.
   */
  datatype User = User(
    username: string,
    phone: Option<string>,
    fullName: Option<string>,
    email: Option<string>,
    team: Option<string>,
    address: Option<string>,
    hashedPassword: string,
    role: UserRole,
    isActive: bool)

  /** One element of `current_user.roles`, seen through `ur.role.name`. */
  datatype RoleLink = RoleLink(roleName: string)

  /**
   * The authenticated user a handler receives: its row id, its columns, and
   * the `roles` attribute the admin listings read. The `users` table declares
   * no such attribute, so `roles` is `None` for a user loaded from the store
   * and reading it raises.
   */
  datatype Caller = Caller(id: nat, user: User, roles: Option<seq<RoleLink>>)

  /** A `predictions` row: owner, serialized input, label and probability. */
  datatype Prediction = Prediction(userId: nat, inputData: string, prediction: int, probability: real)

  /** An `mlmodels` row: a registry entry. */
  datatype MLModel = MLModel(name: string, version: string, description: Option<string>)

  /** A `predictionmetadata` row: binds a prediction to the registry entry used. */
  datatype PredictionMetadata = PredictionMetadata(predictionId: nat, modelId: nat)

  /** A `feedbacks` row; `predictionId` is whatever the client sent. */
  datatype Feedback = Feedback(predictionId: int, userId: nat, correct: Option<bool>, comment: Option<string>)

  /** A `predictionlogs` row: the request context of a prediction. */
  datatype PredictionLog = PredictionLog(predictionId: nat, userId: nat, requestIp: Option<string>, userAgent: Option<string>)

  /**
   * `User(username=..., email=..., hashed_password=..., role=...)`: every
   * column not given takes its declared default.
   */
  function NewUser(username: string, email: Option<string>, hashedPassword: string, role: Option<UserRole>): (u: User)
    ensures u.username == username && u.email == email && u.hashedPassword == hashedPassword
    ensures role.None? ==> u.role == USER
    ensures role.Some? ==> u.role == role.value
    ensures u.isActive && u.phone.None? && u.fullName.None? && u.team.None? && u.address.None?
  {
    User(username, None, None, email, None, None, hashedPassword,
         if role.Some? then role.value else USER, true)
  }

  /** `username` is declared unique. */
  predicate UsernamesUnique(users: seq<Row<User>>) {
    forall i, j :: 0 <= i < j < |users| ==> users[i].fields.username != users[j].fields.username
  }

  /** `email` is unique when present (NULLs never clash). */
  predicate EmailsUnique(users: seq<Row<User>>) {
    forall i, j :: 0 <= i < j < |users| && users[i].fields.email.Some? ==>
      users[i].fields.email != users[j].fields.email
  }

  /** `phone` is unique when present. */
  predicate PhonesUnique(users: seq<Row<User>>) {
    forall i, j :: 0 <= i < j < |users| && users[i].fields.phone.Some? ==>
      users[i].fields.phone != users[j].fields.phone
  }

  /** `predictionmetadata.prediction_id` is declared unique: one metadata row per prediction. */
  predicate MetadataPerPredictionUnique(metadata: seq<Row<PredictionMetadata>>) {
    forall i, j :: 0 <= i < j < |metadata| ==> metadata[i].fields.predictionId != metadata[j].fields.predictionId
  }

  /** `select(User).where(User.username == name).first()`, as a row index. */
  function FindUsername(users: seq<Row<User>>, name: string): (r: Option<nat>)
    ensures r.Some? ==> r.value < |users| && users[r.value].fields.username == name
    ensures r.None? <==> forall k :: 0 <= k < |users| ==> users[k].fields.username != name
  {
    FirstWhere(users, (u: Row<User>) => u.fields.username == name)
  }

  /** Appending a user whose name no row has keeps usernames unique. */
  lemma FreshUsernameKeepsUnique(users: Table<User>, u: User)
    requires FindUsername(users.rows, u.username).None?
    ensures UsernamesUnique(users.rows) ==> UsernamesUnique(Insert(users, u).rows)
  {
    var r := Insert(users, u).rows;
    forall i, j | 0 <= i < j < |r| && UsernamesUnique(users.rows)
      ensures r[i].fields.username != r[j].fields.username
    {
      if j == |users.rows| {
        assert r[i] == users.rows[i];
      } else {
        assert r[i] == users.rows[i] && r[j] == users.rows[j];
      }
    }
  }

  /** Number of rows with the given username. */
  function CountUsername(users: seq<Row<User>>, name: string): nat {
    if |users| == 0 then 0
    else CountUsername(users[..|users| - 1], name) + (if users[|users| - 1].fields.username == name then 1 else 0)
  }

  /** Unique usernames mean at most one row per name, and exactly one when some row has it. */
  lemma {:induction false} UniqueUsernameCount(users: seq<Row<User>>, name: string)
    requires UsernamesUnique(users)
    ensures CountUsername(users, name) <= 1
    ensures (exists k :: 0 <= k < |users| && users[k].fields.username == name) ==> CountUsername(users, name) == 1
  {
    if |users| > 0 {
      var init := users[..|users| - 1];
      assert UsernamesUnique(init);
      UniqueUsernameCount(init, name);
      if users[|users| - 1].fields.username == name {
        assert forall k :: 0 <= k < |init| ==> init[k].fields.username != name;
        NoUsernameCountZero(init, name);
      } else {
        if exists k :: 0 <= k < |users| && users[k].fields.username == name {
          var k :| 0 <= k < |users| && users[k].fields.username == name;
          assert init[k].fields.username == name;
        }
      }
    }
  }

  lemma {:induction false} NoUsernameCountZero(users: seq<Row<User>>, name: string)
    requires forall k :: 0 <= k < |users| ==> users[k].fields.username != name
    ensures CountUsername(users, name) == 0
  {
    if |users| > 0 {
      NoUsernameCountZero(users[..|users| - 1], name);
    }
  }
}
