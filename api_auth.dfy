/**
 * The `/auth` routes of the `churnPredict_api` tree
 * (churnPredict_api/src/controllers/routes/auth.py): the same rules as the
 * `src` tree, over that tree's users.
 */
module ApiAuth {
  import opened Http
  import opened Tables
  import opened Models
  import opened ApiModels
  import opened Credentials

  /** The registration body of this tree. */
  datatype ApiUserCreate = ApiUserCreate(username: string, email: string, password: string)

  const UsernameTaken: HttpError := HttpError(BadRequest, "Username already taken")
  const InvalidCredentials: HttpError := HttpError(Unauthorized, "Invalid username or password")
  const RegisteredMessage: string := "User registered successfully"

  function ApiRegisterOutcome(db: ApiDb, input: ApiUserCreate, crypto: Crypto): (o: (ApiDb, Result<string>))
    ensures o.1.Err? <==> FindApiUsername(db.users.rows, input.username).Some?
    ensures o.1.Err? ==> o == (db, Err(UsernameTaken))
    ensures o.1.Ok? ==>
      && o.1.value == RegisteredMessage
      && o.0 == db.(users := o.0.users)
      && |o.0.users.rows| == |db.users.rows| + 1
      && o.0.users.rows[..|db.users.rows|] == db.users.rows
      && o.0.users.rows[|db.users.rows|] == Row(db.users.nextId, NewApiUser(input.username, input.email, crypto.hash(input.password)))
    ensures WellFormed(db.users) ==> WellFormed(o.0.users)
    ensures ApiUsernamesUnique(db.users.rows) ==> ApiUsernamesUnique(o.0.users.rows)
  {
    if FindApiUsername(db.users.rows, input.username).Some? then (db, Err(UsernameTaken))
    else
      var users := Insert(db.users, NewApiUser(input.username, input.email, crypto.hash(input.password)));
      assert ApiUsernamesUnique(db.users.rows) ==> ApiUsernamesUnique(users.rows) by {
        if ApiUsernamesUnique(db.users.rows) {
          forall i, j | 0 <= i < j < |users.rows|
            ensures users.rows[i].fields.username != users.rows[j].fields.username
          {
            assert users.rows[i] == db.users.rows[i];
            if j < |db.users.rows| { assert users.rows[j] == db.users.rows[j]; }
          }
        }
      }
      (db.(users := users), Ok(RegisteredMessage))
  }

  method Register(store: ApiStore, input: ApiUserCreate, crypto: Crypto) returns (r: Result<string>)
    modifies store
    ensures var o := ApiRegisterOutcome(old(store.Snapshot()), input, crypto);
      store.Snapshot() == o.0 && r == o.1
  {
    var existing := FindApiUsername(store.users.rows, input.username);
    if existing.Some? {
      return Err(UsernameTaken);
    }
    store.users := Insert(store.users, NewApiUser(input.username, input.email, crypto.hash(input.password)));
    r := Ok(RegisteredMessage);
  }

  /** Only the username is checked: a taken email gets through to the store, against the schema. */
  lemma ApiRegisterBreaksEmailUniqueness(db: ApiDb, input: ApiUserCreate, crypto: Crypto, k: nat)
    requires FindApiUsername(db.users.rows, input.username).None?
    requires k < |db.users.rows| && db.users.rows[k].fields.email == input.email
    ensures !ApiSchemaConstraints(ApiRegisterOutcome(db, input, crypto).0)
  {
    var users := ApiRegisterOutcome(db, input, crypto).0.users.rows;
    assert users[k] == db.users.rows[k];
    assert users[|db.users.rows|].fields.email == input.email;
  }

  /** `login`: as in the `src` tree, read-only, a bearer token for the name with a 30-minute lifetime. */
  method Login(store: ApiStore, username: string, password: string, crypto: Crypto) returns (r: Result<Token>)
    ensures r.Ok? <==>
      var k := FindApiUsername(store.users.rows, username);
      k.Some? && crypto.verify(password, store.users.rows[k.value].fields.hashedPassword)
    ensures r.Err? ==> r.error == InvalidCredentials
    ensures r.Ok? ==> r.value == Token(crypto.encode(Claims(username, TokenLifetimeMinutes)), BearerType)
  {
    var k := FindApiUsername(store.users.rows, username);
    if k.None? || !crypto.verify(password, store.users.rows[k.value].fields.hashedPassword) {
      return Err(InvalidCredentials);
    }
    var user := store.users.rows[k.value].fields;
    r := Ok(Token(crypto.encode(Claims(user.username, TokenLifetimeMinutes)), BearerType));
  }
}
