/**
 * The `/auth` routes of src/controllers/routes/users.py: self-registration,
 * which refuses a taken username and nothing else, and login, which only
 * reads the store.
 */
module UserRoutes {
  import opened Http
  import opened Tables
  import opened Models
  import opened Database
  import opened Credentials

  /** The `UserCreate` body: `full_name` is accepted and ignored by both handlers that read it. */
  datatype UserCreate = UserCreate(username: string, email: Option<string>, fullName: Option<string>, password: string)

  const UsernameTaken: HttpError := HttpError(BadRequest, "Username already taken")
  const InvalidCredentials: HttpError := HttpError(Unauthorized, "Invalid username or password")
  const RegisteredMessage: string := "User registered successfully"

  /** `register`: only the username is looked up; the new row takes every column default. */
  function RegisterOutcome(db: Db, input: UserCreate, crypto: Crypto): (o: Outcome<string>)
    ensures o.result.Err? <==> FindUsername(db.users.rows, input.username).Some?
    ensures o.result.Err? ==> o == Outcome(db, Err(UsernameTaken))
    ensures o.result.Ok? ==>
      && o.result.value == RegisteredMessage
      && o.db == db.(users := o.db.users)
      && |o.db.users.rows| == |db.users.rows| + 1
      && o.db.users.rows[..|db.users.rows|] == db.users.rows
      && o.db.users.rows[|db.users.rows|].id == db.users.nextId
      && o.db.users.rows[|db.users.rows|].fields == NewUser(input.username, input.email, crypto.hash(input.password), None)
    ensures o.result.Ok? ==> o.db.users.rows[|db.users.rows|].fields.role == USER
    ensures DbValid(db) ==> DbValid(o.db)
  {
    if FindUsername(db.users.rows, input.username).Some? then Outcome(db, Err(UsernameTaken))
    else
      var user := NewUser(input.username, input.email, crypto.hash(input.password), None);
      FreshUsernameKeepsUnique(db.users, user);
      Outcome(db.(users := Insert(db.users, user)), Ok(RegisteredMessage))
  }

  method Register(store: Store, input: UserCreate, crypto: Crypto) returns (r: Result<string>)
    modifies store
    ensures var o := RegisterOutcome(old(store.Snapshot()), input, crypto);
      store.Snapshot() == o.db && r == o.result
  {
    var existing := FindUsername(store.users.rows, input.username);
    if existing.Some? {
      return Err(UsernameTaken);
    }
    store.users := Insert(store.users, NewUser(input.username, input.email, crypto.hash(input.password), None));
    r := Ok(RegisteredMessage);
  }

  /** Registration accepts an email another user already has: only the database's own constraint would refuse it. */
  lemma RegisterAllowsDuplicateEmail(db: Db, input: UserCreate, crypto: Crypto, k: nat)
    requires FindUsername(db.users.rows, input.username).None?
    requires input.email.Some? && k < |db.users.rows| && db.users.rows[k].fields.email == input.email
    ensures RegisterOutcome(db, input, crypto).result.Ok?
    ensures !EmailsUnique(RegisterOutcome(db, input, crypto).db.users.rows)
  {
    var users := RegisterOutcome(db, input, crypto).db.users.rows;
    assert users[k] == db.users.rows[k];
    assert users[|db.users.rows|].fields.email == input.email;
  }

  /**
   * `login`: the first user with that name, and a password the hash accepts,
   * earn a bearer token for that name with a 30-minute lifetime. Nothing is
   * written: the method has no `modifies` clause.
   */
  method Login(store: Store, username: string, password: string, crypto: Crypto) returns (r: Result<Token>)
    ensures r.Ok? <==>
      var k := FindUsername(store.users.rows, username);
      k.Some? && crypto.verify(password, store.users.rows[k.value].fields.hashedPassword)
    ensures r.Err? ==> r.error == InvalidCredentials
    ensures r.Ok? ==> r.value == Token(crypto.encode(Claims(username, TokenLifetimeMinutes)), BearerType)
  {
    var k := FindUsername(store.users.rows, username);
    if k.None? || !crypto.verify(password, store.users.rows[k.value].fields.hashedPassword) {
      return Err(InvalidCredentials);
    }
    var user := store.users.rows[k.value].fields;
    var token := crypto.encode(Claims(user.username, TokenLifetimeMinutes));
    r := Ok(Token(token, BearerType));
  }
}
